/**
  Recovery in the multicast pipeline, under any loss: what a node has stored and seen, which
  term an initiator asks for, who answers, and when the answer is floated.
 */
module TomRecovery {
  import opened Wrappers
  import opened Messages
  import opened TomRun
  import opened TomSafety
  import opened TomProgress

  /** The packet of round `r`. */
  function Sent(c: Plan, r: nat): Packet
    requires c.n > 0
  {
    Prepared(c, After(c, r), r).1
  }

  /** Round `r` floats message `t`, as its own or piggybacked. */
  predicate Floats(c: Plan, r: nat, t: nat)
    requires c.n > 0
  {
    var pkt := Sent(c, r);
    (pkt.hasMessage && pkt.currentTerm == t) || pkt.pbTerm == Some(t)
  }

  function Carried(pkt: Packet): set<nat> {
    (if pkt.hasMessage then {pkt.currentTerm} else {}) + if pkt.pbTerm.Some? then {pkt.pbTerm.value} else {}
  }

  // ---------------------------------------------------------------- what a node has stored

  lemma PreparedStores(c: Plan, sys: Sys, r: nat)
    requires |sys.states| == c.n > 0
    ensures var (sys', pkt) := Prepared(c, sys, r);
      sys'.states[r % c.n].store.Keys == sys.states[r % c.n].store.Keys + Carried(pkt)
  {
    hide Deliver, Gap, MinExpected, Repairs;
    var i := r % c.n;
    if sys.published < c.messages {
      DeliveredGrows(Inserted(sys.states[i], sys.nextTerm, Msg(sys.nextTerm)));
    }
  }

  lemma StoredStores(st: TomState, pkt: Packet)
    requires pkt.pbTerm.Some? ==> pkt.pbData != Empty
    ensures Deliver(Stored(st, pkt)).store.Keys == st.store.Keys + Carried(pkt)
  {
    DeliveredGrows(Stored(st, pkt));
    hide Deliver;
  }

  /** What a round adds to a store: what it floats, at those who take part. */
  lemma RoundStores(c: Plan, r: nat, j: nat)
    requires ValidPlan(c) && j < c.n
    ensures After(c, r + 1).states[j].store.Keys
         == After(c, r).states[j].store.Keys + if j in c.parts(r) then Carried(Sent(c, r)) else {}
  {
    hide After, Prepared, Deliver, Stored, NodeOk, Settled;
    HalvesOk(c, r, j);
    RoundOfNode(c, r, j);
    var (sys, pkt) := Prepared(c, After(c, r), r);
    StoredStores(sys.states[j], pkt);
    if j == r % c.n {
      PreparedStores(c, After(c, r), r);
    } else {
      OthersUntouched(c, After(c, r), r, j);
    }
  }

  /** Under any loss a node has stored exactly the messages floated in rounds it took part in. */
  lemma {:induction false} StoresExactly(c: Plan, r: nat, j: nat, t: nat)
    requires ValidPlan(c) && j < c.n
    ensures t in After(c, r).states[j].store <==> exists q: nat :: q < r && j in c.parts(q) && Floats(c, q, t)
  {
    hide Sent, After, Floats;
    if r == 0 {
      FreshAtStart(c, j);
    } else {
      StoresExactly(c, r - 1, j, t);
      RoundStores(c, r - 1, j);
      CarriedFloats(c, r - 1, t);
      assert t in After(c, r).states[j].store <==> t in After(c, r).states[j].store.Keys;
    }
  }

  lemma FreshAtStart(c: Plan, j: nat)
    requires j < c.n
    ensures After(c, 0).states[j] == FRESH
    ensures After(c, 0).pbTerm == None && After(c, 0).pbData == Empty
  {
  }

  lemma CarriedFloats(c: Plan, r: nat, t: nat)
    requires c.n > 0
    ensures t in Carried(Sent(c, r)) <==> Floats(c, r, t)
  {
    hide Sent;
  }

  // ---------------------------------------------------------------- what a node has seen

  predicate SeenUpTo(st: TomState, u: nat) {
    st.highestSeen.Some? && st.highestSeen.value >= u
  }

  predicate StoredIsSeen(st: TomState) {
    forall t :: t in st.store ==> SeenUpTo(st, t)
  }

  predicate MentionedIn(pkt: Packet, u: nat) {
    pkt.currentTerm >= u || (pkt.pbTerm.Some? && pkt.pbTerm.value >= u)
  }

  /** Round `r` mentions a term as high as `u`, with a message or without. */
  predicate Mentions(c: Plan, r: nat, u: nat)
    requires c.n > 0
  {
    MentionedIn(Sent(c, r), u)
  }

  lemma InsertSeen(st: TomState, t: nat, d: Data)
    requires StoredIsSeen(st)
    ensures StoredIsSeen(Inserted(st, t, d))
    ensures forall u: nat :: SeenUpTo(Inserted(st, t, d), u) <==> SeenUpTo(st, u) || t >= u
  {
  }

  /** What the packet itself adds, before the piggybacked message. */
  function OwnStored(st: TomState, pkt: Packet): TomState {
    if pkt.hasMessage then Inserted(st, pkt.currentTerm, pkt.data)
    else st.(highestSeen := Raised(st.highestSeen, pkt.currentTerm))
  }

  lemma OwnSeen(st: TomState, pkt: Packet)
    requires StoredIsSeen(st)
    ensures StoredIsSeen(OwnStored(st, pkt))
    ensures forall u: nat :: SeenUpTo(OwnStored(st, pkt), u) <==> SeenUpTo(st, u) || pkt.currentTerm >= u
  {
    InsertSeen(st, pkt.currentTerm, pkt.data);
    hide Inserted;
  }

  lemma StoreSeen(st: TomState, pkt: Packet)
    requires StoredIsSeen(st) && (pkt.pbTerm.Some? ==> pkt.pbData != Empty)
    ensures var st' := Deliver(Stored(st, pkt));
      StoredIsSeen(st') && forall u: nat :: SeenUpTo(st', u) <==> SeenUpTo(st, u) || MentionedIn(pkt, u)
  {
    hide Deliver, Inserted, Raised;
    OwnSeen(st, pkt);
    var st1 := OwnStored(st, pkt);
    if pkt.pbTerm.Some? {
      InsertSeen(st1, pkt.pbTerm.value, pkt.pbData);
      assert Stored(st, pkt) == Inserted(st1, pkt.pbTerm.value, pkt.pbData);
    } else {
      assert Stored(st, pkt) == st1;
    }
    DeliveredGrows(Stored(st, pkt));
  }

  lemma FloatSeen(c: Plan, sys: Sys, r: nat)
    requires |sys.states| == c.n > 0 && StoredIsSeen(sys.states[r % c.n])
    ensures var i, f := r % c.n, Float(c, sys, r);
      && StoredIsSeen(f.sys.states[i]) && (forall j :: 0 <= j < c.n && j != i ==> f.sys.states[j] == sys.states[j])
      && forall u: nat :: SeenUpTo(f.sys.states[i], u) <==> SeenUpTo(sys.states[i], u) || (f.hasMessage && f.term >= u)
  {
    var i, st, f := r % c.n, sys.states[r % c.n], Float(c, sys, r);
    if f.hasMessage {
      InsertSeen(st, f.term, f.data);
      DeliveredGrows(Inserted(st, f.term, f.data));
    }
    hide Deliver, Inserted, MinExpected, Repairs;
  }

  lemma PreparedSeen(c: Plan, sys: Sys, r: nat)
    requires |sys.states| == c.n > 0 && StoredIsSeen(sys.states[r % c.n])
    ensures var (sys', pkt) := Prepared(c, sys, r);
      && StoredIsSeen(sys'.states[r % c.n])
      && (forall u: nat :: SeenUpTo(sys.states[r % c.n], u) ==> SeenUpTo(sys'.states[r % c.n], u))
      && forall u: nat :: SeenUpTo(sys'.states[r % c.n], u) ==> SeenUpTo(sys.states[r % c.n], u) || MentionedIn(pkt, u)
  {
    FloatSeen(c, sys, r);
    var i, f := r % c.n, Float(c, sys, r);
    var pb := PiggybackOf(f.sys, i);
    if pb.Some? {
      InsertSeen(f.sys.states[i], f.sys.pbTerm.value, pb.value);
    }
    hide Float, Inserted, Gap;
  }

  lemma RoundSeen(c: Plan, r: nat, j: nat, u: nat)
    requires ValidPlan(c) && j < c.n && StoredIsSeen(After(c, r).states[j])
    ensures StoredIsSeen(After(c, r + 1).states[j])
    ensures SeenUpTo(After(c, r + 1).states[j], u)
      <==> SeenUpTo(After(c, r).states[j], u) || (j in c.parts(r) && Mentions(c, r, u))
  {
    hide After, Prepared, Deliver, Stored, NodeOk, Settled, StoredIsSeen, SeenUpTo, MentionedIn;
    HalvesOk(c, r, j);
    RoundOfNode(c, r, j);
    var (sys, pkt) := Prepared(c, After(c, r), r);
    if j == r % c.n {
      PreparedSeen(c, After(c, r), r);
    } else {
      OthersUntouched(c, After(c, r), r, j);
    }
    StoreSeen(sys.states[j], pkt);
  }

  /** The highest term a node has seen is the highest one mentioned in the rounds it took part in. */
  lemma {:induction false} SeenExactly(c: Plan, r: nat, j: nat, u: nat)
    requires ValidPlan(c) && j < c.n
    ensures StoredIsSeen(After(c, r).states[j])
    ensures SeenUpTo(After(c, r).states[j], u) <==> exists q: nat :: q < r && j in c.parts(q) && Mentions(c, q, u)
  {
    hide Sent, After, Mentions;
    if r == 0 {
      FreshAtStart(c, j);
    } else {
      SeenExactly(c, r - 1, j, u);
      RoundSeen(c, r - 1, j, u);
    }
  }

  // ---------------------------------------------------------------- who asks for what

  /** A term the node waits for, not higher than the highest it has seen, and not in its store. */
  predicate Misses(st: TomState, t: nat) {
    NextExpected(st) <= t && SeenUpTo(st, t) && t !in st.store
  }

  lemma {:induction false} FirstIsLeast(store: map<nat, Data>, t: nat, upTo: nat)
    ensures var first := FirstMissing(store, t, upTo);
      forall u: nat :: t <= u && (if first.Some? then u < first.value else u <= upTo) ==> u in store
    decreases upTo + 1 - t
  {
    if t <= upTo && t in store {
      FirstIsLeast(store, t + 1, upTo);
    }
  }

  lemma NackIs(c: Plan, sys: Sys, r: nat)
    requires |sys.states| == c.n > 0
    ensures var gap := Gap(sys.states[r % c.n]); Prepared(c, sys, r).1.nack == if gap.Some? then gap.value else 0
  {
    hide Float, PiggybackOf, Gap, Inserted;
  }

  /** The initiator asks for the least term it misses; a request for term 0 is no request. */
  lemma AsksExactly(c: Plan, r: nat)
    requires ValidPlan(c)
    ensures var st, nack := After(c, r).states[r % c.n], Sent(c, r).nack;
      if exists t: nat :: Misses(st, t)
      then Misses(st, nack) && forall t: nat :: Misses(st, t) ==> nack <= t
      else nack == 0
  {
    var st := After(c, r).states[r % c.n];
    hide After, Prepared, NextExpected;
    NackIs(c, After(c, r), r);
    if st.highestSeen.Some? {
      FirstIsLeast(st.store, NextExpected(st), st.highestSeen.value);
    }
  }

  // ---------------------------------------------------------------- when an answer is floated

  /** The initiator of round `r` has the term that is asked for, or floats it anyway, or its data is at hand. */
  predicate CanFloat(c: Plan, r: nat)
    requires c.n > 0
  {
    var sys, pkt := After(c, r), Sent(c, r);
    && sys.pbTerm.Some?
    && (sys.pbTerm.value in sys.states[r % c.n].store || (pkt.hasMessage && pkt.currentTerm == sys.pbTerm.value)
        || sys.pbData != Empty)
  }

  lemma FloatStores(c: Plan, sys: Sys, r: nat)
    requires |sys.states| == c.n > 0
    ensures var f := Float(c, sys, r);
      && f.sys.states[r % c.n].store.Keys == sys.states[r % c.n].store.Keys + (if f.hasMessage then {f.term} else {})
      && f.sys.pbTerm == sys.pbTerm && f.sys.pbData == sys.pbData
      && Prepared(c, sys, r).1.hasMessage == f.hasMessage && Prepared(c, sys, r).1.currentTerm == f.term
  {
    hide Deliver, Gap, MinExpected, Repairs, PiggybackOf;
    var i := r % c.n;
    if sys.published < c.messages {
      DeliveredGrows(Inserted(sys.states[i], sys.nextTerm, Msg(sys.nextTerm)));
    }
  }

  lemma PiggybackIs(c: Plan, sys: Sys, r: nat)
    requires |sys.states| == c.n > 0
    ensures var (sys', pkt) := Prepared(c, sys, r);
      var f := Float(c, sys, r).sys;
      var pb := PiggybackOf(f, r % c.n);
      && pkt.pbTerm == (if pb.Some? then f.pbTerm else None)
      && sys'.pbTerm == (if pb.Some? then None else f.pbTerm)
  {
    hide Float, PiggybackOf, Gap, Inserted;
  }

  /** A term asked for is floated by the next initiator that can, with its message, and stays pending until then. */
  lemma FloatsPending(c: Plan, r: nat)
    requires ValidPlan(c)
    ensures var (sys, pkt) := Prepared(c, After(c, r), r);
      && pkt == Sent(c, r) && pkt.pbTerm == (if CanFloat(c, r) then After(c, r).pbTerm else None)
      && (pkt.pbTerm.Some? ==> pkt.pbData == Msg(pkt.pbTerm.value))
      && sys.pbTerm == (if CanFloat(c, r) then None else After(c, r).pbTerm) && sys.pbData == Empty
  {
    hide After, Prepared, Float;
    PacketsAreHonest(c, r);
    FloatStores(c, After(c, r), r);
    PiggybackIs(c, After(c, r), r);
    var f := Float(c, After(c, r), r).sys;
    if f.pbTerm.Some? {
      assert f.pbTerm.value in f.states[r % c.n].store <==> f.pbTerm.value in f.states[r % c.n].store.Keys;
    }
  }

  // ---------------------------------------------------------------- who answers

  /** A node that takes part in round `r` and has the term the packet asks for, if only by that packet. */
  predicate CanAnswer(c: Plan, r: nat, i: nat)
    requires c.n > 0
  {
    i < c.n && i in c.parts(r) && Sent(c, r).nack in After(c, r + 1).states[i].store
  }

  /** One turn: a holder answers; another only notes the request, if none is noted. */
  lemma TurnAnswers(c: Plan, sys: Sys, r: nat, pkt: Packet, i: nat)
    requires |sys.states| == c.n && i < c.n
    ensures var sys' := ProcessNode(c, sys, r, pkt, i);
      if i !in c.parts(r) || pkt.nack == 0 then sys'.pbTerm == sys.pbTerm && sys'.pbData == sys.pbData
      else if pkt.nack in sys'.states[i].store
      then sys'.pbTerm == Some(pkt.nack) && sys'.pbData == sys'.states[i].store[pkt.nack]
      else sys'.pbTerm == (if sys.pbTerm.Some? then sys.pbTerm else Some(pkt.nack)) && sys'.pbData == sys.pbData
  {
    hide Deliver, Stored, Ledger.Announced, Terms;
  }

  lemma {:induction false} TurnsAnswer(c: Plan, r: nat, k: nat)
    requires ValidPlan(c) && k <= c.n
    ensures var (sys, pkt) := Prepared(c, After(c, r), r);
      var sys' := ProcessUpTo(c, sys, r, pkt, k);
      if pkt.nack == 0 then sys'.pbTerm == sys.pbTerm && sys'.pbData == sys.pbData
      else if exists i: nat :: i < k && CanAnswer(c, r, i)
      then sys'.pbTerm == Some(pkt.nack) && sys'.pbData == Msg(pkt.nack)
      else sys'.pbData == sys.pbData
           && sys'.pbTerm == if sys.pbTerm.None? && exists i: nat :: i < k && i in c.parts(r) then Some(pkt.nack)
                             else sys.pbTerm
  {
    hide After, Prepared, ProcessNode, Deliver, Stored, NodeOk, Settled, PacketOk;
    var (sys, pkt) := Prepared(c, After(c, r), r);
    if k > 0 {
      TurnsAnswer(c, r, k - 1);
      TurnAnswers(c, ProcessUpTo(c, sys, r, pkt, k - 1), r, pkt, k - 1);
      TurnsTaken(c, sys, r, pkt, k, k - 1);
      RoundOfNode(c, r, k - 1);
      HalvesOk(c, r + 1, k - 1);
      StoreIsGenuine(After(c, r + 1).states[k - 1], After(c, r + 1).nextTerm);
      assert ProcessUpTo(c, sys, r, pkt, k).states[k - 1] == After(c, r + 1).states[k - 1];
      assert k - 1 in c.parts(r) && pkt.nack in After(c, r + 1).states[k - 1].store <==> CanAnswer(c, r, k - 1);
      if exists i: nat :: i < k && CanAnswer(c, r, i) {
        assert CanAnswer(c, r, k - 1) || exists i: nat :: i < k - 1 && CanAnswer(c, r, i);
      } else {
        assert !CanAnswer(c, r, k - 1);
        assert !(exists i: nat :: i < k - 1 && CanAnswer(c, r, i));
      }
    }
  }

  lemma PendingKept(c: Plan, r: nat)
    requires c.n > 0
    ensures var (sys, pkt) := Prepared(c, After(c, r), r);
      var sys' := ProcessUpTo(c, sys, r, pkt, c.n);
      After(c, r + 1).pbTerm == sys'.pbTerm && After(c, r + 1).pbData == sys'.pbData
  {
    hide Prepared, ProcessUpTo, ShouldStop;
  }

  /**
    After a round: if its packet asks for a term and a participant has it, that term and its
    message are pending; if nobody has it, the request is noted unless an older one is still
    pending; with no request, what was pending and not floated stays.
   */
  lemma AnswersExactly(c: Plan, r: nat)
    requires ValidPlan(c)
    ensures var nack, left := Sent(c, r).nack, if CanFloat(c, r) then None else After(c, r).pbTerm;
      if nack > 0 && exists i: nat :: CanAnswer(c, r, i)
      then After(c, r + 1).pbTerm == Some(nack) && After(c, r + 1).pbData == Msg(nack)
      else After(c, r + 1).pbData == Empty
           && After(c, r + 1).pbTerm == if left.Some? then left else if nack > 0 then Some(nack) else None
  {
    hide After, Prepared, ProcessUpTo, CanFloat;
    FloatsPending(c, r);
    TurnsAnswer(c, r, c.n);
    PendingKept(c, r);
    assert r % c.n < c.n && r % c.n in c.parts(r);
  }

  /** What a round floats of its own: the next message; then the earliest that somebody lacks; then nothing. */
  lemma FloatsOwn(c: Plan, r: nat)
    requires ValidPlan(c)
    ensures var pkt, need := Sent(c, r), MinExpected(After(c, r).states);
      && pkt.sender == r % c.n
      && (pkt.hasMessage <==> r < c.messages || need < c.messages)
      && pkt.currentTerm == (if r < c.messages then r else if need < c.messages then need
                             else if c.messages == 0 then 0 else c.messages - 1)
      && pkt.data == if pkt.hasMessage then Msg(pkt.currentTerm) else Empty
  {
    ReachableOk(c, r);
    if r >= c.messages && MinExpected(After(c, r).states) < c.messages {
      RepairFinds(c, After(c, r), r);
    }
    hide After, Repairs, MinExpected, Inserted, Deliver, Gap, PiggybackOf, NodesOk, Kept, Paired;
  }

  // ---------------------------------------------------------------- a run

  /** Three nodes, twelve messages; only node 2, and only in round 1, does not take part. */
  ghost predicate AbsentOnce(c: Plan) {
    && ValidPlan(c) && c.n == 3 && c.messages == 12
    && forall r: nat :: c.parts(r) == if r == 1 then {0, 1} else {0, 1, 2}
  }

  lemma Publishes(c: Plan, r: nat)
    requires ValidPlan(c) && r < c.messages
    ensures Sent(c, r).hasMessage && Sent(c, r).currentTerm == r
  {
    FloatsOwn(c, r);
    hide After, Sent;
  }

  lemma SeenBelow(c: Plan, r: nat, j: nat)
    requires ValidPlan(c) && j < c.n && r <= c.messages
    ensures forall t: nat :: SeenUpTo(After(c, r).states[j], t) ==> t < r
  {
    if r == 0 {
      FreshAtStart(c, j);
    } else {
      hide After;
      HalvesOk(c, r, j);
    }
  }

  /** Until round 5 everybody stores what is published but node 2 what it missed, and nobody asks. */
  lemma {:induction false} NobodyAsksYet(c: Plan, r: nat)
    requires AbsentOnce(c) && r <= 5
    ensures After(c, r).pbTerm == None && After(c, r).pbData == Empty
    ensures forall j: nat, t: nat :: j < 3 ==> (t in After(c, r).states[j].store <==> t < r && (j == 2 ==> t != 1))
    ensures r < 5 ==> Sent(c, r).nack == 0
  {
    hide After, Sent, SeenUpTo, NodeOk, AllSettled;
    if r == 0 {
      FreshAtStart(c, 0);
      FreshAtStart(c, 1);
      FreshAtStart(c, 2);
    } else {
      NobodyAsksYet(c, r - 1);
      AnswersExactly(c, r - 1);
      FloatsPending(c, r - 1);
      forall j: nat, t: nat | j < 3 ensures t in After(c, r).states[j].store <==> t < r && (j == 2 ==> t != 1) {
        NothingElseFloated(c, r - 1, j, t);
      }
    }
    NoGapYet(c, r);
  }

  lemma NothingElseFloated(c: Plan, r: nat, j: nat, t: nat)
    requires AbsentOnce(c) && r < 12 && Sent(c, r).pbTerm == None && j < 3
    ensures t in After(c, r + 1).states[j].store
      <==> t in After(c, r).states[j].store || (t == r && (j == 2 ==> r != 1))
  {
    hide After, Sent;
    Publishes(c, r);
    RoundStores(c, r, j);
    assert Carried(Sent(c, r)) == {r};
    assert c.parts(r) == if r == 1 then {0, 1} else {0, 1, 2};
    var before, after := After(c, r).states[j].store, After(c, r + 1).states[j].store;
    assert (t in before <==> t in before.Keys) && (t in after <==> t in after.Keys);
  }

  lemma NoGapYet(c: Plan, r: nat)
    requires AbsentOnce(c) && r <= 5
    requires forall j: nat, t: nat :: j < 3 ==> (t in After(c, r).states[j].store <==> t < r && (j == 2 ==> t != 1))
    ensures r < 5 ==> Sent(c, r).nack == 0
  {
    hide After, Sent, SeenUpTo, NextExpected;
    AsksExactly(c, r);
    SeenBelow(c, r, r % 3);
    if r == 2 {
      NothingSeenYet(c);
      NextIsMissing(c, 2, 2);
    }
  }

  /** What a node expects next is the first term missing from its store. */
  lemma NextIsMissing(c: Plan, r: nat, j: nat)
    requires ValidPlan(c) && j < c.n
    ensures NextExpected(After(c, r).states[j]) !in After(c, r).states[j].store
    ensures forall t: nat :: t < NextExpected(After(c, r).states[j]) ==> t in After(c, r).states[j].store
  {
    hide After, NextExpected;
    HalvesOk(c, r, j);
    DeliversAllItCan(c, r, j);
    CountIsNext(After(c, r).states[j], After(c, r).nextTerm);
  }

  lemma NothingSeenYet(c: Plan)
    requires AbsentOnce(c)
    ensures forall t: nat :: SeenUpTo(After(c, 2).states[2], t) ==> t == 0
  {
    hide After, Sent;
    FreshAtStart(c, 0);
    Publishes(c, 0);
    FloatsPending(c, 0);
    SeenExactly(c, 2, 2, 1);
    assert 2 !in c.parts(1) && !Mentions(c, 0, 1);
    assert !SeenUpTo(After(c, 2).states[2], 1);
  }

  /** In round 5 node 2 initiates for the first time since it has seen that it misses message 1, and asks. */
  lemma AbsenteeAsks(c: Plan)
    requires AbsentOnce(c)
    ensures Sent(c, 5).nack == 1
  {
    hide After, Sent;
    NobodyAsksYet(c, 5);
    NextIsMissing(c, 5, 2);
    Publishes(c, 2);
    SeenExactly(c, 5, 2, 1);
    assert 2 in c.parts(2) && Mentions(c, 2, 1);
    assert 1 !in After(c, 5).states[2].store;
    hide NextExpected;
    AsksExactly(c, 5);
    assert Misses(After(c, 5).states[2], 1);
  }

  /** Everybody else answers, and round 6 floats the message. */
  lemma AbsenteeAnswered(c: Plan)
    requires AbsentOnce(c)
    ensures After(c, 6).pbTerm == Some(1) && Sent(c, 6).pbTerm == Some(1)
  {
    hide After, Sent;
    NobodyAsksYet(c, 5);
    AbsenteeAsks(c);
    FloatsPending(c, 5);
    NothingElseFloated(c, 5, 0, 1);
    assert 0 in c.parts(5) && CanAnswer(c, 5, 0);
    AnswersExactly(c, 5);
    FloatsPending(c, 6);
    assert CanFloat(c, 6);
  }

  /** One absence costs one repair: after round 6 node 2 has delivered all seven messages published so far. */
  lemma AbsenceRepaired(c: Plan)
    requires AbsentOnce(c)
    ensures |After(c, 6).states[2].delivered| == 1 && |After(c, 7).states[2].delivered| == 7
  {
    hide After, Sent;
    NobodyAsksYet(c, 5);
    AbsenteeAnswered(c);
    FloatsPending(c, 5);
    forall t: nat ensures t in After(c, 6).states[2].store.Keys <==> t < 6 && t != 1 {
      NothingElseFloated(c, 5, 2, t);
    }
    Publishes(c, 6);
    RoundStores(c, 6, 2);
    assert Carried(Sent(c, 6)) == {1, 6} && 2 in c.parts(6);
    DeliveredAfter(c, 6, 2, 1);
    DeliveredAfter(c, 7, 2, 7);
  }

  lemma DeliveredAfter(c: Plan, r: nat, j: nat, k: nat)
    requires ValidPlan(c) && j < c.n && k !in After(c, r).states[j].store.Keys
    requires forall t: nat :: t < k ==> t in After(c, r).states[j].store.Keys
    ensures |After(c, r).states[j].delivered| == k
  {
    hide After;
    DeliversAllItCan(c, r, j);
  }
}
