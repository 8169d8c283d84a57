/** The record books shared by the pipelines: one record per proposal, the first time it is announced. */
module Ledger {
  import opened Metrics
  import opened Network

  /** Announce proposal `t`: recorded from its start to `slot`, unless it is known already. */
  function Announce(known: set<nat>, records: seq<ProposalRecord>, t: nat, outcome: ProposalOutcome,
                    starts: map<nat, nat>, slot: nat): (set<nat>, seq<ProposalRecord>)
  {
    if t in known then (known, records)
    else (known + {t}, records + [Record(t, if t in starts then starts[t] else 0, slot, outcome)])
  }

  /** Announce commits one after the other. */
  function Announced(known: set<nat>, records: seq<ProposalRecord>, newly: seq<nat>,
                     starts: map<nat, nat>, slot: nat): (set<nat>, seq<ProposalRecord>)
  {
    if newly == [] then (known, records)
    else
      var (k, rs) := Announced(known, records, newly[..|newly| - 1], starts, slot);
      Announce(k, rs, newly[|newly| - 1], Committed, starts, slot)
  }

  /** The known proposals are those on record, each recorded once. */
  ghost predicate OneEach(known: set<nat>, records: seq<ProposalRecord>) {
    && (forall k :: 0 <= k < |records| ==> records[k].proposalId in known)
    && (forall t: nat :: t in known ==> exists k :: 0 <= k < |records| && records[k].proposalId == t)
    && (forall j, k :: 0 <= j < k < |records| ==> records[j].proposalId != records[k].proposalId)
  }

  lemma AnnounceOneEach(known: set<nat>, records: seq<ProposalRecord>, t: nat, outcome: ProposalOutcome,
                        starts: map<nat, nat>, slot: nat)
    requires OneEach(known, records)
    ensures var (k, rs) := Announce(known, records, t, outcome, starts, slot);
      OneEach(k, rs)
  {
    if t !in known {
      var (known', records') := Announce(known, records, t, outcome, starts, slot);
      assert records'[|records|].proposalId == t;
      forall u: nat | u in known' ensures exists k :: 0 <= k < |records'| && records'[k].proposalId == u {
        if u != t {
          var k :| 0 <= k < |records| && records[k].proposalId == u;
          assert records'[k].proposalId == u;
        }
      }
    }
  }

  /** Proposals that are known already are not announced again. */
  lemma {:induction false} NothingNew(known: set<nat>, records: seq<ProposalRecord>, newly: seq<nat>,
                                      starts: map<nat, nat>, slot: nat)
    requires forall t: nat :: t in newly ==> t in known
    ensures Announced(known, records, newly, starts, slot) == (known, records)
  {
    if newly != [] {
      var n := |newly| - 1;
      assert newly == newly[..n] + [newly[n]];
      NothingNew(known, records, newly[..n], starts, slot);
    }
  }

  /**
    Announcing keeps one record per known proposal, adds exactly the new ones to the
    known, and every record is an old one or one of a new proposal closed at `slot`.
   */
  lemma {:induction false} AnnouncedOneEach(known: set<nat>, records: seq<ProposalRecord>, newly: seq<nat>,
                                            starts: map<nat, nat>, slot: nat)
    requires OneEach(known, records)
    requires forall t: nat :: t in newly ==> t in starts
    ensures var (k, rs) := Announced(known, records, newly, starts, slot);
      && OneEach(k, rs)
      && (forall t: nat :: t in k <==> t in known || t in newly)
      && (forall j :: 0 <= j < |rs| ==>
            rs[j] in records
            || (rs[j].proposalId in newly && rs[j].proposalId !in known
                && rs[j] == Record(rs[j].proposalId, starts[rs[j].proposalId], slot, Committed)))
  {
    hide OneEach;
    if newly != [] {
      var n := |newly| - 1;
      assert newly == newly[..n] + [newly[n]];
      AnnouncedOneEach(known, records, newly[..n], starts, slot);
      var (k, rs) := Announced(known, records, newly[..n], starts, slot);
      AnnounceOneEach(k, rs, newly[n], Committed, starts, slot);
    }
  }

  /** Announce verdicts one after the other. */
  function AnnouncedAll(known: set<nat>, records: seq<ProposalRecord>, verdicts: seq<(nat, ProposalOutcome)>,
                        starts: map<nat, nat>, slot: nat): (set<nat>, seq<ProposalRecord>)
  {
    if verdicts == [] then (known, records)
    else
      var (k, rs) := AnnouncedAll(known, records, verdicts[..|verdicts| - 1], starts, slot);
      var last := verdicts[|verdicts| - 1];
      Announce(k, rs, last.0, last.1, starts, slot)
  }

  /** Each verdict is on record once; every record is an old one or one of these verdicts. */
  lemma {:induction false} AnnouncedAllOneEach(known: set<nat>, records: seq<ProposalRecord>,
                                               verdicts: seq<(nat, ProposalOutcome)>,
                                               starts: map<nat, nat>, slot: nat)
    requires OneEach(known, records)
    requires forall k :: 0 <= k < |verdicts| ==> verdicts[k].0 in starts
    ensures var (k, rs) := AnnouncedAll(known, records, verdicts, starts, slot);
      && OneEach(k, rs)
      && (forall j :: 0 <= j < |rs| ==> rs[j] in records || Announces(verdicts, rs[j], starts, slot))
  {
    hide OneEach;
    if verdicts != [] {
      var n := |verdicts| - 1;
      AnnouncedAllOneEach(known, records, verdicts[..n], starts, slot);
      var (k, rs) := AnnouncedAll(known, records, verdicts[..n], starts, slot);
      AnnounceOneEach(k, rs, verdicts[n].0, verdicts[n].1, starts, slot);
      var rs' := AnnouncedAll(known, records, verdicts, starts, slot).1;
      forall j | 0 <= j < |rs'| ensures rs'[j] in records || Announces(verdicts, rs'[j], starts, slot) {
        if j < |rs| && Announces(verdicts[..n], rs[j], starts, slot) {
          var v :| 0 <= v < n && verdicts[..n][v].0 in starts
                   && rs[j] == Record(verdicts[..n][v].0, starts[verdicts[..n][v].0], slot, verdicts[..n][v].1);
          assert verdicts[v] == verdicts[..n][v];
        }
      }
    }
  }

  ghost predicate Announces(verdicts: seq<(nat, ProposalOutcome)>, rec: ProposalRecord,
                            starts: map<nat, nat>, slot: nat)
  {
    exists k :: 0 <= k < |verdicts| && verdicts[k].0 in starts
      && rec == Record(verdicts[k].0, starts[verdicts[k].0], slot, verdicts[k].1)
  }

  /** Among verdicts on known proposals, one new verdict is all there is to record. */
  lemma {:induction false} AnnouncesOnly(known: set<nat>, records: seq<ProposalRecord>,
                                         verdicts: seq<(nat, ProposalOutcome)>, starts: map<nat, nat>, slot: nat,
                                         t: nat, outcome: ProposalOutcome)
    requires t !in known && t in starts
    requires forall k :: 0 <= k < |verdicts| ==> verdicts[k].0 in known || verdicts[k] == (t, outcome)
    ensures AnnouncedAll(known, records, verdicts, starts, slot)
         == if (t, outcome) in verdicts then (known + {t}, records + [Record(t, starts[t], slot, outcome)])
            else (known, records)
  {
    if verdicts != [] {
      var n := |verdicts| - 1;
      assert verdicts == verdicts[..n] + [verdicts[n]];
      AnnouncesOnly(known, records, verdicts[..n], starts, slot, t, outcome);
    }
  }

  lemma {:induction false} NothingToAnnounce(known: set<nat>, records: seq<ProposalRecord>,
                                             verdicts: seq<(nat, ProposalOutcome)>, starts: map<nat, nat>, slot: nat)
    requires forall k :: 0 <= k < |verdicts| ==> verdicts[k].0 in known
    ensures AnnouncedAll(known, records, verdicts, starts, slot) == (known, records)
  {
    if verdicts != [] {
      NothingToAnnounce(known, records, verdicts[..|verdicts| - 1], starts, slot);
    }
  }

  /** Announcing adds one record for every proposal announced that was not known, and no other. */
  lemma {:induction false} AnnouncedRecords(known: set<nat>, records: seq<ProposalRecord>, newly: seq<nat>,
                                            starts: map<nat, nat>, slot: nat, rec: ProposalRecord)
    requires forall k :: 0 <= k < |newly| ==> newly[k] in starts
    ensures forall t: nat :: t in Announced(known, records, newly, starts, slot).0 <==> t in known || t in newly
    ensures rec in Announced(known, records, newly, starts, slot).1
      <==> rec in records
           || (rec.proposalId in newly && rec.proposalId !in known
               && rec == Record(rec.proposalId, starts[rec.proposalId], slot, Committed))
  {
    if newly != [] {
      var n := |newly| - 1;
      assert newly == newly[..n] + [newly[n]];
      AnnouncedRecords(known, records, newly[..n], starts, slot, rec);
    }
  }

  // ---------------------------------------------------------------- complete logs

  /** What a log has entries on. */
  ghost function Entries<T>(log: seq<(nat, T)>): set<nat> {
    set k | 0 <= k < |log| :: log[k].0
  }

  lemma {:induction false} EntriesCounted<T>(log: seq<(nat, T)>)
    requires forall j, k :: 0 <= j < k < |log| ==> log[j].0 != log[k].0
    ensures |Entries(log)| == |log|
  {
    if log != [] {
      var k := |log| - 1;
      EntriesCounted(log[..k]);
      assert Entries(log) == Entries(log[..k]) + {log[k].0};
    }
  }

  /** A log of the first `n` proposals with one entry on each at most is complete exactly if it is long enough. */
  lemma CompleteByLength<T>(log: seq<(nat, T)>, n: nat)
    requires forall j, k :: 0 <= j < k < |log| ==> log[j].0 != log[k].0
    requires forall k :: 0 <= k < |log| ==> log[k].0 < n
    ensures |log| <= n
    ensures |log| == n <==> Upto(n) <= Entries(log)
  {
    EntriesCounted(log);
    UptoSize(n);
    assert Entries(log) <= Upto(n);
    SubsetSize(Entries(log), Upto(n));
    if |log| == n {
      SubsetIsAll(Entries(log), Upto(n));
    } else if Upto(n) <= Entries(log) {
      SubsetSize(Upto(n), Entries(log));
    }
  }

  lemma SubsetIsAll(a: set<nat>, b: set<nat>)
    requires a <= b && |a| >= |b|
    ensures a == b
  {
    assert b == a + (b - a);
  }
}
