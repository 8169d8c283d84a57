/** What every multicast pipeline run keeps, under any loss: total order, honest repair, one record per message. */
module TomSafety {
  import opened Wrappers
  import opened Messages
  import opened Metrics
  import opened Ledger
  import opened TomRun

  /** Stored messages are genuine, delivered ones are the terms 0, 1, 2, ... with their messages. */
  ghost predicate NodeOk(st: TomState, terms: nat) {
    && (forall t :: t in st.store ==> t < terms && st.store[t] == Msg(t))
    && (forall k :: 0 <= k < |st.delivered| ==> st.delivered[k] == (k, Msg(k)) && k in st.store)
    && NextExpected(st) == |st.delivered|
    && (st.highestSeen.Some? ==> st.highestSeen.value == 0 || st.highestSeen.value < terms)
  }

  predicate Settled(st: TomState) {
    NextExpected(st) !in st.store
  }

  lemma {:induction false} DeliverOk(st: TomState, terms: nat)
    requires NodeOk(st, terms)
    ensures NodeOk(Deliver(st), terms) && Settled(Deliver(st))
    ensures Deliver(st).store == st.store && st.delivered <= Deliver(st).delivered
    decreases Waiting(st)
  {
    if NextExpected(st) in st.store {
      FewerWaiting(st);
      DeliverOk(DeliverOne(st), terms);
    }
  }

  lemma InsertOk(st: TomState, t: nat, terms: nat)
    requires NodeOk(st, terms) && t < terms
    ensures NodeOk(Inserted(st, t, Msg(t)), terms) && t in Inserted(st, t, Msg(t)).store
    ensures st.store.Keys <= Inserted(st, t, Msg(t)).store.Keys
  {
  }

  lemma MoreTerms(st: TomState, terms: nat, terms': nat)
    requires NodeOk(st, terms) && terms <= terms'
    ensures NodeOk(st, terms')
  {
  }

  /** A fresh term at a settled node is at most the only new delivery. */
  lemma PublishDelivers(st: TomState, t: nat)
    requires NodeOk(st, t) && Settled(st)
    ensures var st' := Deliver(Inserted(st, t, Msg(t)));
      NodeOk(st', t + 1) && Settled(st') && t in st'.store && st.store.Keys <= st'.store.Keys
      && |st'.delivered| <= |st.delivered| + 1
      && (|st'.delivered| > |st.delivered| ==> |st.delivered| == t)
  {
    MoreTerms(st, t, t + 1);
    InsertOk(st, t, t + 1);
    var st1 := Inserted(st, t, Msg(t));
    DeliverOk(st1, t + 1);
    if NextExpected(st1) in st1.store {
      var st2 := DeliverOne(st1);
      assert NextExpected(st2) == t + 1;
      assert Deliver(st1) == Deliver(st2) == st2;
    }
  }

  // ---------------------------------------------------------------- the whole system

  ghost predicate NodesOk(c: Plan, sys: Sys) {
    && |sys.states| == c.n
    && forall j :: 0 <= j < c.n ==> NodeOk(sys.states[j], sys.nextTerm)
  }

  /** Every published message is at least at its publisher, the initiator of the round of its number. */
  ghost predicate Kept(c: Plan, sys: Sys)
    requires c.n > 0 && |sys.states| == c.n
  {
    forall t: nat :: t < sys.nextTerm ==> t in sys.states[t % c.n].store
  }

  /** Data waiting to be piggybacked belongs to the term it waits for. */
  ghost predicate Paired(sys: Sys) {
    && (sys.pbTerm.Some? ==> sys.pbTerm.value < sys.nextTerm)
    && (sys.pbData != Empty ==> sys.pbTerm.Some? && sys.pbData == Msg(sys.pbTerm.value))
  }

  ghost predicate Clocked(c: Plan, sys: Sys, r: nat) {
    && sys.published == sys.nextTerm == (if r < c.messages then r else c.messages)
    && forall t: nat :: t < sys.nextTerm ==> t in sys.starts && sys.starts[t] == c.preparedAt(t)
  }

  ghost predicate AllOk(c: Plan, sys: Sys, r: nat)
    requires c.n > 0
  {
    NodesOk(c, sys) && Kept(c, sys) && Paired(sys) && Clocked(c, sys, r)
  }

  ghost predicate PacketOk(pkt: Packet, terms: nat) {
    && (pkt.hasMessage ==> pkt.currentTerm < terms && pkt.data == Msg(pkt.currentTerm))
    && (pkt.currentTerm == 0 || pkt.currentTerm < terms)
    && (pkt.pbTerm.Some? ==> pkt.pbTerm.value < terms && pkt.pbData == Msg(pkt.pbTerm.value))
    && (pkt.nack > 0 ==> pkt.nack < terms)
  }

  lemma {:induction false} MinIsLeast(states: seq<TomState>)
    requires states != []
    ensures forall i :: 0 <= i < |states| ==> MinExpected(states) <= NextExpected(states[i])
    ensures exists i :: 0 <= i < |states| && MinExpected(states) == NextExpected(states[i])
  {
    if |states| > 1 {
      var n := |states| - 1;
      MinIsLeast(states[..n]);
      hide NextExpected;
      var i :| 0 <= i < n && MinExpected(states[..n]) == NextExpected(states[..n][i]);
      assert states[..n][i] == states[i];
      var k := if MinExpected(states) == NextExpected(states[n]) then n else i;
      assert 0 <= k < |states| && MinExpected(states) == NextExpected(states[k]);
    }
  }

  /** A repair is never short of data: whenever a message is missing anywhere, one is found, and it is the right one. */
  lemma RepairFinds(c: Plan, sys: Sys, r: nat)
    requires ValidPlan(c) && AllOk(c, sys, r) && sys.published >= c.messages
    requires MinExpected(sys.states) < c.messages
    ensures Repairs(sys.states, r % c.n, MinExpected(sys.states)) == Some(Msg(MinExpected(sys.states)))
  {
    var need := MinExpected(sys.states);
    assert need in sys.states[need % c.n].store;
    var i :| 0 <= i < |sys.states| && need in sys.states[i].store
             && (need in sys.states[r % c.n].store
                 || sys.states[i].store[need] == FindMessage(sys.states, need).value);
    assert NodeOk(sys.states[i], sys.nextTerm) && NodeOk(sys.states[r % c.n], sys.nextTerm);
  }

  /** One node changes, in order and losing nothing. */
  lemma ChangeOne(c: Plan, sys: Sys, sys': Sys, i: nat)
    requires c.n > 0 && NodesOk(c, sys) && Kept(c, sys) && i < c.n && |sys'.states| == c.n
    requires sys'.states == sys.states[i := sys'.states[i]] && sys'.nextTerm == sys.nextTerm
    requires NodeOk(sys'.states[i], sys.nextTerm) && sys.states[i].store.Keys <= sys'.states[i].store.Keys
    ensures NodesOk(c, sys') && Kept(c, sys')
  {
    hide NodeOk;
    forall t: nat | t < sys.nextTerm ensures t in sys'.states[t % c.n].store {
      assert t in sys.states[t % c.n].store;
      assert t % c.n == i ==> t in sys'.states[i].store.Keys;
    }
  }

  lemma FloatOk(c: Plan, sys: Sys, r: nat)
    requires ValidPlan(c) && AllOk(c, sys, r) && Settled(sys.states[r % c.n])
    ensures var f := Float(c, sys, r);
      AllOk(c, f.sys, r + 1) && f.sys.pbTerm == sys.pbTerm && f.sys.pbData == sys.pbData
      && (f.hasMessage ==> f.term < f.sys.nextTerm && f.data == Msg(f.term))
      && (f.term == 0 || f.term < f.sys.nextTerm)
  {
    hide MinExpected, Repairs, Deliver, Inserted, NodeOk, Kept;
    var i, f := r % c.n, Float(c, sys, r);
    assert NodeOk(sys.states[i], sys.nextTerm);
    if sys.published < c.messages {
      PublishDelivers(sys.states[i], sys.nextTerm);
      Published(c, sys, f.sys, i);
    } else {
      var need := MinExpected(sys.states);
      if need < c.messages {
        RepairFinds(c, sys, r);
        InsertOk(sys.states[i], need, sys.nextTerm);
        ChangeOne(c, sys, f.sys, i);
      }
    }
  }

  lemma Published(c: Plan, sys: Sys, sys': Sys, i: nat)
    requires c.n > 0 && NodesOk(c, sys) && Kept(c, sys) && i < c.n && |sys'.states| == c.n
    requires sys'.states == sys.states[i := sys'.states[i]] && sys'.nextTerm == sys.nextTerm + 1
    requires NodeOk(sys'.states[i], sys'.nextTerm) && sys.states[i].store.Keys <= sys'.states[i].store.Keys
    requires i == sys.nextTerm % c.n && sys.nextTerm in sys'.states[i].store
    ensures NodesOk(c, sys') && Kept(c, sys')
  {
    forall j | 0 <= j < c.n ensures NodeOk(sys'.states[j], sys'.nextTerm) {
      MoreTerms(sys.states[j], sys.nextTerm, sys'.nextTerm);
    }
    hide NodeOk;
    forall t: nat | t < sys'.nextTerm ensures t in sys'.states[t % c.n].store {
      if t < sys.nextTerm {
        assert t in sys.states[t % c.n].store;
        assert t % c.n == i ==> t in sys'.states[i].store.Keys;
      }
    }
  }

  /** Preparation keeps everything in order, sends an honest packet and leaves no piggyback data behind. */
  lemma PreparedOk(c: Plan, sys: Sys, r: nat)
    requires ValidPlan(c) && AllOk(c, sys, r) && Settled(sys.states[r % c.n])
    ensures var (sys', pkt) := Prepared(c, sys, r);
      AllOk(c, sys', r + 1) && PacketOk(pkt, sys'.nextTerm) && sys'.pbData == Empty
  {
    hide Float, Deliver, FirstMissing;
    var i, f := r % c.n, Float(c, sys, r);
    FloatOk(c, sys, r);
    assert NodeOk(sys.states[i], sys.nextTerm);
    assert NodeOk(f.sys.states[i], f.sys.nextTerm);
    var pb := PiggybackOf(f.sys, i);
    if pb.Some? {
      assert pb.value == Msg(f.sys.pbTerm.value);
      InsertOk(f.sys.states[i], f.sys.pbTerm.value, f.sys.nextTerm);
      hide Inserted;
      ChangeOne(c, f.sys, Prepared(c, sys, r).0, i);
    }
  }

  lemma StoredOk(st: TomState, pkt: Packet, terms: nat)
    requires NodeOk(st, terms) && PacketOk(pkt, terms)
    ensures NodeOk(Stored(st, pkt), terms) && st.store.Keys <= Stored(st, pkt).store.Keys
    ensures Stored(st, pkt).delivered == st.delivered
  {
  }

  lemma ProcessNodeOk(c: Plan, sys: Sys, r: nat, pkt: Packet, i: nat)
    requires ValidPlan(c) && AllOk(c, sys, r + 1) && PacketOk(pkt, sys.nextTerm) && i < c.n
    ensures var sys' := ProcessNode(c, sys, r, pkt, i);
      AllOk(c, sys', r + 1) && sys'.nextTerm == sys.nextTerm
  {
    hide Announced, Deliver, Stored, NodeOk, Kept, Terms;
    var sys' := ProcessNode(c, sys, r, pkt, i);
    if i in c.parts(r) {
      assert NodeOk(sys.states[i], sys.nextTerm);
      StoredOk(sys.states[i], pkt, sys.nextTerm);
      DeliverOk(Stored(sys.states[i], pkt), sys.nextTerm);
      ChangeOne(c, sys, sys', i);
      StoreIsGenuine(sys'.states[i], sys'.nextTerm);
    }
  }

  lemma StoreIsGenuine(st: TomState, terms: nat)
    requires NodeOk(st, terms)
    ensures forall t: nat :: t in st.store ==> st.store[t] == Msg(t)
  {
  }

  lemma {:induction false} ProcessUpToOk(c: Plan, sys: Sys, r: nat, pkt: Packet, k: nat)
    requires ValidPlan(c) && AllOk(c, sys, r + 1) && PacketOk(pkt, sys.nextTerm) && k <= c.n
    ensures var sys' := ProcessUpTo(c, sys, r, pkt, k);
      AllOk(c, sys', r + 1) && sys'.nextTerm == sys.nextTerm
  {
    assert |sys.states| == c.n;
    hide NodesOk, Kept, Paired, Clocked, ProcessNode, PacketOk;
    if k > 0 {
      ProcessUpToOk(c, sys, r, pkt, k - 1);
      ProcessNodeOk(c, ProcessUpTo(c, sys, r, pkt, k - 1), r, pkt, k - 1);
    }
  }

  // ---------------------------------------------------------------- deliveries are settled between rounds

  ghost predicate AllSettled(sys: Sys) {
    forall j :: 0 <= j < |sys.states| ==> Settled(sys.states[j])
  }

  /** Once the initiator and everybody before node `k` have processed, what is unsettled can only be the initiator. */
  ghost predicate SettledBut(c: Plan, sys: Sys, r: nat, k: nat)
    requires c.n > 0 && |sys.states| == c.n
  {
    forall j :: 0 <= j < c.n && (j != r % c.n || j < k) ==> Settled(sys.states[j])
  }

  lemma FloatSettled(c: Plan, sys: Sys, r: nat)
    requires c.n > 0 && |sys.states| == c.n && AllSettled(sys)
    ensures SettledBut(c, Prepared(c, sys, r).0, r, 0)
  {
    hide Deliver, Inserted, Gap, MinExpected, Repairs, PiggybackOf;
  }

  lemma ProcessSettled(c: Plan, sys: Sys, r: nat, pkt: Packet, k: nat)
    requires ValidPlan(c) && AllOk(c, sys, r + 1) && PacketOk(pkt, sys.nextTerm) && k < c.n
    requires SettledBut(c, sys, r, k)
    ensures SettledBut(c, ProcessNode(c, sys, r, pkt, k), r, k + 1)
  {
    hide Announced, Deliver, Stored, Settled, NodeOk, Kept, Paired, Clocked, PacketOk;
    StoredOk(sys.states[k], pkt, sys.nextTerm);
    DeliverOk(Stored(sys.states[k], pkt), sys.nextTerm);
  }

  lemma {:induction false} ProcessUpToSettled(c: Plan, sys: Sys, r: nat, pkt: Packet, k: nat)
    requires ValidPlan(c) && AllOk(c, sys, r + 1) && PacketOk(pkt, sys.nextTerm) && k <= c.n
    requires SettledBut(c, sys, r, 0)
    ensures SettledBut(c, ProcessUpTo(c, sys, r, pkt, k), r, k)
  {
    hide NodeOk, Kept, Paired, Clocked, ProcessNode, PacketOk, SettledBut;
    if k > 0 {
      ProcessUpToSettled(c, sys, r, pkt, k - 1);
      ProcessUpToOk(c, sys, r, pkt, k - 1);
      ProcessSettled(c, ProcessUpTo(c, sys, r, pkt, k - 1), r, pkt, k - 1);
    }
  }

  lemma RoundSettled(c: Plan, sys: Sys, r: nat)
    requires ValidPlan(c) && AllOk(c, sys, r) && AllSettled(sys)
    ensures AllOk(c, RoundOf(c, sys, r), r + 1) && AllSettled(RoundOf(c, sys, r))
  {
    hide Settled, NodeOk, Prepared, ProcessUpTo, PacketOk, ShouldStop;
    PreparedOk(c, sys, r);
    FloatSettled(c, sys, r);
    var (sys1, pkt) := Prepared(c, sys, r);
    ProcessUpToOk(c, sys1, r, pkt, c.n);
    ProcessUpToSettled(c, sys1, r, pkt, c.n);
  }

  /** The inductive invariant of a multicast pipeline run, under any loss. */
  lemma {:induction false} ReachableOk(c: Plan, r: nat)
    requires ValidPlan(c)
    ensures AllOk(c, After(c, r), r) && AllSettled(After(c, r))
  {
    hide NodesOk, Kept, Paired, Clocked, RoundOf, AllSettled;
    if r > 0 {
      ReachableOk(c, r - 1);
      RoundSettled(c, After(c, r - 1), r - 1);
    } else {
      StartOk(c);
    }
  }

  lemma StartOk(c: Plan)
    requires ValidPlan(c)
    ensures AllOk(c, Start(c.n), 0) && AllSettled(Start(c.n))
  {
  }

  // ---------------------------------------------------------------- the delivery records

  /** A record of message `t`: opened when round `t` was prepared, closed when a later round was processed. */
  ghost predicate RecordOk(c: Plan, rec: ProposalRecord, r: nat) {
    exists q: nat :: q < r && rec.proposalId <= q
      && rec == Record(rec.proposalId, c.preparedAt(rec.proposalId), c.processedAt(q), Committed)
  }

  ghost predicate DeliveredSomewhere(sys: Sys, t: nat) {
    exists i :: 0 <= i < |sys.states| && t < |sys.states[i].delivered|
  }

  /**
    One record per announced message; announced are only messages delivered
    somewhere, and all that any node but their publisher has delivered.
   */
  ghost predicate BooksOk(c: Plan, sys: Sys, r: nat)
    requires c.n > 0
  {
    && OneEach(sys.global, sys.records)
    && (forall k :: 0 <= k < |sys.records| ==> RecordOk(c, sys.records[k], r))
    && (forall t: nat :: t in sys.global ==> DeliveredSomewhere(sys, t))
    && Announces(c, sys)
  }

  ghost predicate Announces(c: Plan, sys: Sys)
    requires c.n > 0
  {
    forall j, t: nat :: 0 <= j < |sys.states| && t < |sys.states[j].delivered| && j != t % c.n ==> t in sys.global
  }

  /** Node `i` alone changes, delivering more; what it newly delivers is `newly`, all of it announced or its own. */
  lemma DeliversMore(c: Plan, sys: Sys, sys': Sys, i: nat)
    requires c.n > 0 && i < |sys.states| && |sys'.states| == |sys.states|
    requires forall j :: 0 <= j < |sys.states| && j != i ==> sys'.states[j].delivered == sys.states[j].delivered
    requires |sys.states[i].delivered| <= |sys'.states[i].delivered| && sys.global <= sys'.global
    requires forall t: nat :: |sys.states[i].delivered| <= t < |sys'.states[i].delivered| ==>
      t in sys'.global || i == t % c.n
    requires forall t: nat :: t in sys'.global ==> t in sys.global || t < |sys'.states[i].delivered|
    requires (forall t: nat :: t in sys.global ==> DeliveredSomewhere(sys, t)) && Announces(c, sys)
    ensures (forall t: nat :: t in sys'.global ==> DeliveredSomewhere(sys', t)) && Announces(c, sys')
  {
    forall t: nat | t in sys'.global ensures DeliveredSomewhere(sys', t) {
      if t < |sys'.states[i].delivered| {
      } else {
        var j :| 0 <= j < |sys.states| && t < |sys.states[j].delivered|;
        assert t < |sys'.states[j].delivered|;
      }
    }
  }

  /** In preparation the initiator delivers at most the message it publishes, and announces nothing. */
  lemma PreparedBooks(c: Plan, sys: Sys, r: nat)
    requires ValidPlan(c) && AllOk(c, sys, r) && AllSettled(sys) && BooksOk(c, sys, r)
    ensures BooksOk(c, Prepared(c, sys, r).0, r)
  {
    var i, sys' := r % c.n, Prepared(c, sys, r).0;
    PreparedDelivers(c, sys, r);
    hide Prepared, NodeOk, Kept, Paired, OneEach;
    DeliversMore(c, sys, sys', i);
  }

  lemma PreparedDelivers(c: Plan, sys: Sys, r: nat)
    requires ValidPlan(c) && AllOk(c, sys, r) && AllSettled(sys)
    ensures var i, sys' := r % c.n, Prepared(c, sys, r).0;
      && sys'.global == sys.global && sys'.records == sys.records
      && (forall j :: 0 <= j < c.n && j != i ==> sys'.states[j].delivered == sys.states[j].delivered)
      && |sys.states[i].delivered| <= |sys'.states[i].delivered|
      && (forall t: nat :: |sys.states[i].delivered| <= t < |sys'.states[i].delivered| ==> t % c.n == i)
  {
    hide Deliver, Gap, MinExpected, Repairs, PiggybackOf, Kept, Paired, Settled, NodeOk;
    var i := r % c.n;
    assert NodeOk(sys.states[i], sys.nextTerm) && Settled(sys.states[i]);
    if sys.published < c.messages {
      PublishDelivers(sys.states[i], sys.nextTerm);
      DeliveredGrows(Inserted(sys.states[i], sys.nextTerm, Msg(sys.nextTerm)));
    }
  }

  lemma NewTerms(st: TomState, st': TomState, terms: nat)
    requires NodeOk(st', terms) && st.delivered <= st'.delivered
    ensures forall t: nat :: t in Terms(st'.delivered[|st.delivered|..]) <==> |st.delivered| <= t < |st'.delivered|
  {
    var news := Terms(st'.delivered[|st.delivered|..]);
    forall t: nat ensures t in news <==> |st.delivered| <= t < |st'.delivered| {
      if |st.delivered| <= t < |st'.delivered| {
        assert news[t - |st.delivered|] == t;
      }
    }
  }

  lemma ProcessBooks(c: Plan, sys: Sys, r: nat, pkt: Packet, i: nat)
    requires ValidPlan(c) && AllOk(c, sys, r + 1) && PacketOk(pkt, sys.nextTerm) && i < c.n
    requires BooksOk(c, sys, r + 1)
    ensures BooksOk(c, ProcessNode(c, sys, r, pkt, i), r + 1)
  {
    hide Deliver, Stored, Announced, Kept, Paired, OneEach, NodeOk, PacketOk;
    var sys' := ProcessNode(c, sys, r, pkt, i);
    if i in c.parts(r) {
      var st, st' := sys.states[i], Deliver(Stored(sys.states[i], pkt));
      StoredOk(st, pkt, sys.nextTerm);
      DeliverOk(Stored(st, pkt), sys.nextTerm);
      var newly := Terms(st'.delivered[|st.delivered|..]);
      NewTerms(st, st', sys.nextTerm);
      assert |st'.delivered| <= sys.nextTerm by {
        DeliveredWereSent(st', sys.nextTerm);
      }
      AnnouncedOneEach(sys.global, sys.records, newly, sys.starts, c.processedAt(r));
      DeliversMore(c, sys, sys', i);
      forall k | 0 <= k < |sys'.records| ensures RecordOk(c, sys'.records[k], r + 1) {
      }
    }
  }

  lemma DeliveredWereSent(st: TomState, terms: nat)
    requires NodeOk(st, terms)
    ensures |st.delivered| <= terms
  {
    if |st.delivered| > 0 {
      assert st.delivered[|st.delivered| - 1].0 in st.store;
    }
  }

  lemma {:induction false} ProcessUpToBooks(c: Plan, sys: Sys, r: nat, pkt: Packet, k: nat)
    requires ValidPlan(c) && AllOk(c, sys, r + 1) && PacketOk(pkt, sys.nextTerm) && k <= c.n
    requires BooksOk(c, sys, r + 1)
    ensures BooksOk(c, ProcessUpTo(c, sys, r, pkt, k), r + 1)
  {
    assert |sys.states| == c.n;
    hide NodesOk, Kept, Paired, Clocked, ProcessNode, PacketOk, BooksOk;
    if k > 0 {
      ProcessUpToBooks(c, sys, r, pkt, k - 1);
      ProcessUpToOk(c, sys, r, pkt, k - 1);
      ProcessBooks(c, ProcessUpTo(c, sys, r, pkt, k - 1), r, pkt, k - 1);
    }
  }

  lemma MoreTime(c: Plan, sys: Sys, r: nat)
    requires c.n > 0 && BooksOk(c, sys, r)
    ensures BooksOk(c, sys, r + 1)
  {
    forall k | 0 <= k < |sys.records| ensures RecordOk(c, sys.records[k], r + 1) {
      assert RecordOk(c, sys.records[k], r);
    }
  }

  /** The records of every run, under any loss. */
  lemma {:induction false} ReachableBooks(c: Plan, r: nat)
    requires ValidPlan(c)
    ensures BooksOk(c, After(c, r), r)
  {
    hide AllOk, AllSettled, BooksOk, RoundOf;
    if r > 0 {
      ReachableBooks(c, r - 1);
      ReachableOk(c, r - 1);
      RoundBooks(c, After(c, r - 1), r - 1);
    } else {
      assert BooksOk(c, Start(c.n), 0) by {
        StartBooks(c);
      }
    }
  }

  lemma StartBooks(c: Plan)
    requires c.n > 0
    ensures BooksOk(c, Start(c.n), 0)
  {
  }

  lemma RoundBooks(c: Plan, sys: Sys, r: nat)
    requires ValidPlan(c) && AllOk(c, sys, r) && AllSettled(sys) && BooksOk(c, sys, r)
    ensures BooksOk(c, RoundOf(c, sys, r), r + 1)
  {
    PreparedBooks(c, sys, r);
    PreparedOk(c, sys, r);
    var (sys1, pkt) := Prepared(c, sys, r);
    MoreTime(c, sys1, r);
    ProcessUpToBooks(c, sys1, r, pkt, c.n);
    hide Prepared, ProcessUpTo, ShouldStop, NodeOk, OneEach, RecordOk;
    var sys2 := ProcessUpTo(c, sys1, r, pkt, c.n);
    assert forall t: nat :: DeliveredSomewhere(sys2, t) ==> DeliveredSomewhere(RoundOf(c, sys, r), t);
  }

  // ---------------------------------------------------------------- what a run guarantees

  /** Total order: whatever two nodes have delivered, the shorter list is a prefix of the longer, data and all. */
  lemma TotalOrder(c: Plan, r: nat, i: nat, j: nat)
    requires ValidPlan(c) && i < c.n && j < c.n
    ensures var a, b := After(c, r).states[i].delivered, After(c, r).states[j].delivered;
      && (forall k :: 0 <= k < |a| ==> a[k] == (k, Msg(k)))
      && (|a| <= |b| ==> a <= b)
  {
    ReachableOk(c, r);
    hide After;
    assert NodeOk(After(c, r).states[i], After(c, r).nextTerm);
    assert NodeOk(After(c, r).states[j], After(c, r).nextTerm);
  }

  /** No failure branch of the end-of-run check is reachable. */
  lemma OrderCheckPasses(c: Plan, r: nat)
    requires ValidPlan(c)
    ensures forall i :: 0 <= i < c.n ==> InOrder(After(c, r).states[i])
  {
    forall i: nat | i < c.n ensures InOrder(After(c, r).states[i]) {
      TotalOrder(c, r, i, i);
    }
  }

  /** A node has delivered exactly the terms before the first one missing from its store. */
  lemma DeliversAllItCan(c: Plan, r: nat, i: nat)
    requires ValidPlan(c) && i < c.n
    ensures var st := After(c, r).states[i];
      |st.delivered| !in st.store && forall k: nat :: k < |st.delivered| ==> k in st.store
  {
    ReachableOk(c, r);
    hide After;
    assert NodeOk(After(c, r).states[i], After(c, r).nextTerm);
    assert Settled(After(c, r).states[i]);
  }

  /** In every round: the packet is honest, and once all is published it repairs whatever somebody misses. */
  lemma PacketsAreHonest(c: Plan, r: nat)
    requires ValidPlan(c)
    ensures var sys := After(c, r);
      var (sys', pkt) := Prepared(c, sys, r);
      && PacketOk(pkt, sys'.nextTerm) && sys'.pbData == Empty
      && (r >= c.messages && MinExpected(sys.states) < c.messages ==>
            pkt.hasMessage && pkt.currentTerm == MinExpected(sys.states))
  {
    ReachableOk(c, r);
    PreparedOk(c, After(c, r), r);
    if r >= c.messages && MinExpected(After(c, r).states) < c.messages {
      RepairFinds(c, After(c, r), r);
    }
    hide After, PacketOk, Repairs, MinExpected, Inserted, Deliver, Gap, PiggybackOf;
  }
}