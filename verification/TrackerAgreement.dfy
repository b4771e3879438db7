/** The index says of every lock what the HTLC's storage says. */
module TrackerAgreement {
  import opened Primitives
  import opened Ledger
  import opened LedgerInvariants
  import opened Tracker

  ghost predicate CreatedIn(log: seq<Event>, l: TrackedLeg) {
    exists i :: 0 <= i < |log| && CreationOf(log[i], l)
  }

  predicate CreationOf(e: Event, l: TrackedLeg) {
    && e.LogNewSwap? && e.contractId == l.contractId && e.hashlock == l.hashlock
    && e.timelock == l.timelock && e.amount == l.amount
  }

  ghost predicate RedeemedIn(log: seq<Event>, cid: Word) {
    exists i :: 0 <= i < |log| && log[i].LogRedeem? && log[i].contractId == cid
  }

  ghost predicate RefundedIn(log: seq<Event>, cid: Word) {
    exists i :: 0 <= i < |log| && log[i].LogRefund? && log[i].contractId == cid
  }

  /** A filed leg repeats what the log says of its lock. */
  ghost predicate LegTold(chain: U64, log: seq<Event>, h: Word, l: TrackedLeg) {
    && l.chainId == chain && l.hashlock == h
    && CreatedIn(log, l)
    && (l.redeemed <==> RedeemedIn(log, l.contractId))
    && (l.refunded <==> RefundedIn(log, l.contractId))
  }

  ghost predicate RecordTold(chain: U64, log: seq<Event>, h: Word, r: SwapRecord) {
    && (forall i :: 0 <= i < |r.legs| ==> LegTold(chain, log, h, r.legs[i]))
    && (forall i, j :: 0 <= i < j < |r.legs| ==> r.legs[i].contractId != r.legs[j].contractId)
    && (r.preimage.Some? ==> SHA256(r.preimage.value) == h && exists i :: 0 <= i < |log| && Reveals(log[i], r.preimage.value))
  }

  predicate Reveals(e: Event, p: Word) { e.LogRedeem? && e.preimage == p }

  /** Every log entry has left its mark. */
  ghost predicate EntryKept(m: Index, chain: U64, e: Event) {
    match e
    case LogNewSwap(cid, _, _, _, _, h, _) => h in m && m[h].Files(chain, cid)
    case LogRedeem(_, p) => SHA256(p) in m && m[SHA256(p)].preimage.Some?
    case LogRefund(_) => true
  }

  ghost predicate Indexes(m: Index, chain: U64, log: seq<Event>) {
    && (forall h :: h in m ==> RecordTold(chain, log, h, m[h]))
    && (forall i :: 0 <= i < |log| ==> EntryKept(m, chain, log[i]))
  }

  // -------- one entry at a time --------

  lemma OldEntriesStay(log: seq<Event>, e: Event)
    ensures forall l :: CreatedIn(log, l) ==> CreatedIn(log + [e], l)
    ensures forall cid :: RedeemedIn(log + [e], cid) <==> RedeemedIn(log, cid) || (e.LogRedeem? && e.contractId == cid)
    ensures forall cid :: RefundedIn(log + [e], cid) <==> RefundedIn(log, cid) || (e.LogRefund? && e.contractId == cid)
  {
    var log1 := log + [e];
    assert log1[|log|] == e;
    assert forall i :: 0 <= i < |log| ==> log1[i] == log[i];
    forall l | CreatedIn(log, l) ensures CreatedIn(log1, l) {
      var i :| 0 <= i < |log| && CreationOf(log[i], l);
      assert CreationOf(log1[i], l);
    }
    forall cid ensures RedeemedIn(log1, cid) <==> RedeemedIn(log, cid) || (e.LogRedeem? && e.contractId == cid) {
      if RedeemedIn(log, cid) {
        var i :| 0 <= i < |log| && log[i].LogRedeem? && log[i].contractId == cid;
        assert log1[i] == log[i];
      }
    }
    forall cid ensures RefundedIn(log1, cid) <==> RefundedIn(log, cid) || (e.LogRefund? && e.contractId == cid) {
      if RefundedIn(log, cid) {
        var i :| 0 <= i < |log| && log[i].LogRefund? && log[i].contractId == cid;
        assert log1[i] == log[i];
      }
    }
  }

  lemma OneEntryPerLock(log: seq<Event>, l: TrackedLeg, i: nat)
    requires WellFormedLog(log) && CreatedIn(log, l)
    requires i < |log| && log[i].LogNewSwap? && log[i].contractId == l.contractId
    ensures CreationOf(log[i], l)
  {
    var j :| 0 <= j < |log| && CreationOf(log[j], l);
    assert i == j;
  }

  /** Filed under two hashlocks would mean created under two. */
  lemma IndexHasOneHome(m: Index, chain: U64, log: seq<Event>)
    requires WellFormedLog(log) && Indexes(m, chain, log)
    ensures OneHome(m)
  {
    forall h, h', c, cid {:trigger m[h].Files(c, cid), m[h'].Files(c, cid)} |
      h in m && h' in m && m[h].Files(c, cid) && m[h'].Files(c, cid)
      ensures h == h'
    {
      var i :| 0 <= i < |m[h].legs| && m[h].legs[i].Is(c, cid);
      var j :| 0 <= j < |m[h'].legs| && m[h'].legs[j].Is(c, cid);
      assert RecordTold(chain, log, h, m[h]) && RecordTold(chain, log, h', m[h']);
      assert LegTold(chain, log, h, m[h].legs[i]) && LegTold(chain, log, h', m[h'].legs[j]);
      var k :| 0 <= k < |log| && CreationOf(log[k], m[h].legs[i]);
      OneEntryPerLock(log, m[h'].legs[j], k);
    }
  }

  lemma PrefixWellFormed(log: seq<Event>, e: Event)
    requires WellFormedLog(log + [e])
    ensures WellFormedLog(log)
    ensures e.LogNewSwap? ==> forall i :: 0 <= i < |log| ==> log[i].contractId != e.contractId
    ensures !e.LogNewSwap? ==> Announced(log, |log|, e)
  {
    var log1 := log + [e];
    assert log1[|log|] == e;
    assert forall i :: 0 <= i < |log| ==> log1[i] == log[i];
    forall i | 0 <= i < |log| && !log[i].LogNewSwap? ensures Announced(log, i, log[i]) {
      assert Announced(log1, i, log1[i]);
      var j :| 0 <= j < i && log1[j].LogNewSwap? && log1[j].contractId == log1[i].contractId
               && (log1[i].LogRedeem? ==> log1[j].hashlock == SHA256(log1[i].preimage));
      assert log[j] == log1[j];
    }
    if e.LogNewSwap? {
      forall i | 0 <= i < |log| ensures log[i].contractId != e.contractId {
        if log[i].LogNewSwap? {
          assert log1[i].contractId != log1[|log|].contractId;
        } else {
          assert Announced(log, i, log[i]);
          var j :| 0 <= j < i && log[j].LogNewSwap? && log[j].contractId == log[i].contractId;
          assert log1[j].contractId != log1[|log|].contractId;
        }
      }
    } else {
      assert Announced(log1, |log|, e);
      var j :| 0 <= j < |log| && log1[j].LogNewSwap? && log1[j].contractId == e.contractId
               && (e.LogRedeem? ==> log1[j].hashlock == SHA256(e.preimage));
      assert log[j] == log1[j];
    }
  }

  /** A record about other locks is as true of the longer log. */
  lemma RecordStaysTold(chain: U64, log: seq<Event>, e: Event, h: Word, r: SwapRecord)
    requires RecordTold(chain, log, h, r)
    requires e.LogNewSwap? || forall i :: 0 <= i < |r.legs| ==> r.legs[i].contractId != e.contractId
    ensures RecordTold(chain, log + [e], h, r)
  {
    OldEntriesStay(log, e);
    forall i | 0 <= i < |r.legs| ensures LegTold(chain, log + [e], h, r.legs[i]) {
      assert LegTold(chain, log, h, r.legs[i]);
    }
    PreimageStays(log, e, r.preimage);
  }

  lemma PreimageStays(log: seq<Event>, e: Event, p: Option<Word>)
    requires p.Some? ==> exists i :: 0 <= i < |log| && Reveals(log[i], p.value)
    ensures p.Some? ==> exists i :: 0 <= i < |log + [e]| && Reveals((log + [e])[i], p.value)
  {
    if p.Some? {
      var i :| 0 <= i < |log| && Reveals(log[i], p.value);
      assert Reveals((log + [e])[i], p.value);
    }
  }

  /** Marking one lock's leg, given the log now has the entry saying so. */
  lemma MarkedRecordTold(chain: U64, log: seq<Event>, e: Event, h: Word, r: SwapRecord, r1: SwapRecord)
    requires RecordTold(chain, log, h, r) && !e.LogNewSwap?
    requires r1.legs == if e.LogRedeem? then Redeemed(r.legs, chain, e.contractId) else RefundedLegs(r.legs, chain, e.contractId)
    requires r1.preimage == if e.LogRedeem? then Some(e.preimage) else r.preimage
    requires e.LogRedeem? ==> SHA256(e.preimage) == h
    ensures RecordTold(chain, log + [e], h, r1)
  {
    OldEntriesStay(log, e);
    forall i | 0 <= i < |r1.legs| ensures LegTold(chain, log + [e], h, r1.legs[i]) {
      assert LegTold(chain, log, h, r.legs[i]);
      var k :| 0 <= k < |log| && CreationOf(log[k], r.legs[i]);
      assert CreationOf((log + [e])[k], r1.legs[i]);
    }
    if e.LogRedeem? {
      assert Reveals((log + [e])[|log|], e.preimage);
    } else {
      PreimageStays(log, e, r.preimage);
    }
  }

  /** Only the hashlock a lock was created under files it. */
  lemma FiledWhereCreated(m: Index, chain: U64, log: seq<Event>, i: nat, h: Word)
    requires WellFormedLog(log) && Indexes(m, chain, log)
    requires i < |log| && log[i].LogNewSwap?
    requires h in m && exists k :: 0 <= k < |m[h].legs| && m[h].legs[k].contractId == log[i].contractId
    ensures h == log[i].hashlock
  {
    var k :| 0 <= k < |m[h].legs| && m[h].legs[k].contractId == log[i].contractId;
    assert RecordTold(chain, log, h, m[h]);
    assert LegTold(chain, log, h, m[h].legs[k]);
    OneEntryPerLock(log, m[h].legs[k], i);
  }

  lemma KeptAfter(m: Index, m1: Index, chain: U64, e: Event)
    requires EntryKept(m, chain, e)
    requires m.Keys <= m1.Keys
    requires forall h, cid :: h in m && m[h].Files(chain, cid) ==> m1[h].Files(chain, cid)
    requires forall h :: h in m && m[h].preimage.Some? ==> m1[h].preimage.Some?
    ensures EntryKept(m1, chain, e)
  {}

  lemma UnannouncedIsUnfiled(chain: U64, log: seq<Event>, h: Word, r: SwapRecord, cid: Word)
    requires RecordTold(chain, log, h, r)
    requires forall i :: 0 <= i < |log| ==> log[i].contractId != cid
    ensures forall i :: 0 <= i < |r.legs| ==> r.legs[i].contractId != cid
  {
    forall i | 0 <= i < |r.legs| ensures r.legs[i].contractId != cid {
      assert LegTold(chain, log, h, r.legs[i]);
      var j :| 0 <= j < |log| && CreationOf(log[j], r.legs[i]);
    }
  }

  function LegFrom(chain: U64, e: Event): TrackedLeg
    requires e.LogNewSwap?
  {
    TrackedLeg(chain, e.contractId, e.hashlock, e.timelock, e.amount, false, false)
  }

  /** The record that gains the new leg. */
  lemma GrownRecordTold(m: Index, chain: U64, log: seq<Event>, e: Event)
    requires WellFormedLog(log + [e]) && Indexes(m, chain, log) && e.LogNewSwap?
    ensures var r := RecordAt(m, e.hashlock);
      && !r.Files(chain, e.contractId)
      && RecordTold(chain, log + [e], e.hashlock, r.(legs := r.legs + [LegFrom(chain, e)]))
  {
    PrefixWellFormed(log, e);
    var h, r, log1 := e.hashlock, RecordAt(m, e.hashlock), log + [e];
    var r1 := r.(legs := r.legs + [LegFrom(chain, e)]);
    if h in m {
      UnannouncedIsUnfiled(chain, log, h, r, e.contractId);
      RecordStaysTold(chain, log, e, h, r);
    }
    OldEntriesStay(log, e);
    assert CreationOf(log1[|log|], LegFrom(chain, e));
    assert LegTold(chain, log1, h, LegFrom(chain, e));
    forall i | 0 <= i < |r1.legs| ensures LegTold(chain, log1, h, r1.legs[i]) {
      if i < |r.legs| {
        assert r1.legs[i] == r.legs[i];
      }
    }
    forall i, j | 0 <= i < j < |r1.legs| ensures r1.legs[i].contractId != r1.legs[j].contractId {
      if j == |r.legs| {
        assert r1.legs[i] == r.legs[i];
      }
    }
  }

  lemma EntriesAfterNewSwap(m: Index, chain: U64, log: seq<Event>, e: Event)
    requires Indexes(m, chain, log) && e.LogNewSwap?
    ensures var r := RecordAt(m, e.hashlock);
      var m1 := m[e.hashlock := r.(legs := r.legs + [LegFrom(chain, e)])];
      forall i :: 0 <= i < |log + [e]| ==> EntryKept(m1, chain, (log + [e])[i])
  {
    var h, r := e.hashlock, RecordAt(m, e.hashlock);
    var m1 := m[h := r.(legs := r.legs + [LegFrom(chain, e)])];
    forall k, cid | k in m && m[k].Files(chain, cid) ensures m1[k].Files(chain, cid) {
      var i :| 0 <= i < |m[k].legs| && m[k].legs[i].Is(chain, cid);
      assert m1[k].legs[i].Is(chain, cid);
    }
    assert m1[h].legs[|r.legs|].Is(chain, e.contractId);
    forall i | 0 <= i < |log + [e]| ensures EntryKept(m1, chain, (log + [e])[i]) {
      if i < |log| {
        KeptAfter(m, m1, chain, log[i]);
      }
    }
  }

  lemma DispatchIndexesNewSwap(m: Index, chain: U64, log: seq<Event>, e: Event)
    requires WellFormedLog(log + [e]) && Indexes(m, chain, log) && e.LogNewSwap?
    ensures Indexes(Dispatch(m, chain, e), chain, log + [e])
  {
    PrefixWellFormed(log, e);
    GrownRecordTold(m, chain, log, e);
    EntriesAfterNewSwap(m, chain, log, e);
    forall k | k in m ensures RecordTold(chain, log + [e], k, m[k]) {
      RecordStaysTold(chain, log, e, k, m[k]);
    }
  }

  /** The record after a redeem or refund entry about one of its locks. */
  function Marked(r: SwapRecord, chain: U64, e: Event): (r1: SwapRecord)
    ensures |r1.legs| == |r.legs|
  {
    if e.LogRedeem? then SwapRecord(Redeemed(r.legs, chain, e.contractId), Some(e.preimage))
    else r.(legs := RefundedLegs(r.legs, chain, e.contractId))
  }

  /** Where a redeem or refund entry lands: the record of the hashlock its lock was created under. */
  lemma MarkLands(m: Index, chain: U64, log: seq<Event>, e: Event) returns (j: nat)
    requires WellFormedLog(log) && Indexes(m, chain, log) && !e.LogNewSwap? && Announced(log, |log|, e)
    ensures j < |log| && log[j].LogNewSwap? && log[j].contractId == e.contractId
    ensures var h := log[j].hashlock;
      && h in m && (e.LogRedeem? ==> SHA256(e.preimage) == h)
      && Dispatch(m, chain, e) == m[h := Marked(m[h], chain, e)]
  {
    IndexHasOneHome(m, chain, log);
    j :| 0 <= j < |log| && log[j].LogNewSwap? && log[j].contractId == e.contractId
         && (e.LogRedeem? ==> log[j].hashlock == SHA256(e.preimage));
    var h := log[j].hashlock;
    assert EntryKept(m, chain, log[j]);
    assert m[h].Files(chain, e.contractId);
    if e.LogRefund? {
      assert HashlockOf(m, chain, e.contractId) == Some(h);
    }
  }

  lemma MarkKeepsEntries(m: Index, chain: U64, log: seq<Event>, e: Event, h: Word, r1: SwapRecord)
    requires Indexes(m, chain, log) && h in m && |r1.legs| == |m[h].legs|
    requires forall i, cid :: 0 <= i < |r1.legs| && m[h].legs[i].Is(chain, cid) ==> r1.legs[i].Is(chain, cid)
    requires m[h].preimage.Some? || e.LogRedeem? ==> r1.preimage.Some?
    requires !e.LogNewSwap? && (e.LogRedeem? ==> SHA256(e.preimage) == h)
    ensures forall i :: 0 <= i < |log + [e]| ==> EntryKept(m[h := r1], chain, (log + [e])[i])
  {
    var m1 := m[h := r1];
    forall k, cid | k in m && m[k].Files(chain, cid) ensures m1[k].Files(chain, cid) {
      var i :| 0 <= i < |m[k].legs| && m[k].legs[i].Is(chain, cid);
      assert m1[k].legs[i].Is(chain, cid);
    }
    forall i | 0 <= i < |log + [e]| ensures EntryKept(m1, chain, (log + [e])[i]) {
      if i < |log| {
        KeptAfter(m, m1, chain, log[i]);
      }
    }
  }

  lemma OtherRecordStaysTold(m: Index, chain: U64, log: seq<Event>, e: Event, j: nat, k: Word)
    requires WellFormedLog(log) && Indexes(m, chain, log)
    requires j < |log| && log[j].LogNewSwap? && log[j].contractId == e.contractId
    requires k in m && k != log[j].hashlock
    ensures RecordTold(chain, log + [e], k, m[k])
  {
    if exists i :: 0 <= i < |m[k].legs| && m[k].legs[i].contractId == e.contractId {
      FiledWhereCreated(m, chain, log, j, k);
    }
    RecordStaysTold(chain, log, e, k, m[k]);
  }

  lemma RecordsAfterMark(m: Index, chain: U64, log: seq<Event>, e: Event, j: nat)
    requires WellFormedLog(log) && Indexes(m, chain, log) && !e.LogNewSwap?
    requires j < |log| && log[j].LogNewSwap? && log[j].contractId == e.contractId
    requires log[j].hashlock in m && (e.LogRedeem? ==> SHA256(e.preimage) == log[j].hashlock)
    ensures var m1 := m[log[j].hashlock := Marked(m[log[j].hashlock], chain, e)];
      forall k :: k in m1 ==> RecordTold(chain, log + [e], k, m1[k])
  {
    var h := log[j].hashlock;
    var m1 := m[h := Marked(m[h], chain, e)];
    assert RecordTold(chain, log, h, m[h]);
    MarkedRecordTold(chain, log, e, h, m[h], m1[h]);
    forall k | k in m1 ensures RecordTold(chain, log + [e], k, m1[k]) {
      if k != h {
        OtherRecordStaysTold(m, chain, log, e, j, k);
      }
    }
  }

  lemma DispatchIndexesMark(m: Index, chain: U64, log: seq<Event>, e: Event)
    requires WellFormedLog(log + [e]) && Indexes(m, chain, log) && !e.LogNewSwap?
    ensures Indexes(Dispatch(m, chain, e), chain, log + [e])
  {
    PrefixWellFormed(log, e);
    var j := MarkLands(m, chain, log, e);
    var h := log[j].hashlock;
    RecordsAfterMark(m, chain, log, e, j);
    MarkKeepsEntries(m, chain, log, e, h, Marked(m[h], chain, e));
  }

  /** A tracker fed a well-formed log from its start indexes exactly that log. */
  lemma {:induction false} ReplayIndexes(chain: U64, log: seq<Event>)
    requires WellFormedLog(log)
    ensures Indexes(Replay(map[], chain, log), chain, log)
    decreases |log|
  {
    if log != [] {
      var n := |log| - 1;
      assert log == log[..n] + [log[n]];
      PrefixWellFormed(log[..n], log[n]);
      ReplayIndexes(chain, log[..n]);
      if log[n].LogNewSwap? {
        DispatchIndexesNewSwap(Replay(map[], chain, log[..n]), chain, log[..n], log[n]);
      } else {
        DispatchIndexesMark(Replay(map[], chain, log[..n]), chain, log[..n], log[n]);
      }
    }
  }

  // -------- the index and the storage --------

  /** The leg the index should hold for lock `cid`. */
  function LegOf(chain: U64, cid: Word, s: Swap): TrackedLeg {
    TrackedLeg(chain, cid, s.hashlock, s.timelock, s.amount, s.withdrawn, s.refunded)
  }

  ghost predicate Agrees(m: Index, chain: U64, swaps: map<Word, Swap>) {
    // every lock is filed under its own hashlock with its own data and flags,
    && (forall cid :: cid in swaps ==>
          swaps[cid].hashlock in m && LegOf(chain, cid, swaps[cid]) in m[swaps[cid].hashlock].legs)
    // nothing else is filed anywhere,
    && (forall h, l :: h in m && l in m[h].legs ==>
          l.contractId in swaps && swaps[l.contractId].hashlock == h && l == LegOf(chain, l.contractId, swaps[l.contractId]))
    // and nothing is filed twice
    && (forall h, i, j :: h in m && 0 <= i < j < |m[h].legs| ==> m[h].legs[i] != m[h].legs[j])
  }

  lemma FiledLegMatchesStorage(w: World, m: Index, chain: U64, h: Word, l: TrackedLeg)
    requires WorldInv(w) && h in m && RecordTold(chain, w.log, h, m[h]) && l in m[h].legs
    ensures l.contractId in w.swaps && w.swaps[l.contractId].hashlock == h
    ensures l == LegOf(chain, l.contractId, w.swaps[l.contractId])
  {
    assert LegTold(chain, w.log, h, l);
    var i :| 0 <= i < |w.log| && CreationOf(w.log[i], l);
    assert Backed(w, w.log[i]);
    var cid := l.contractId;
    var s := w.swaps[cid];
    assert Recorded(w.log, [], cid, s);
    if l.redeemed {
      var k :| 0 <= k < |w.log| && w.log[k].LogRedeem? && w.log[k].contractId == cid;
      assert Backed(w, w.log[k]);
    }
    if s.withdrawn {
      var p :| LogRedeem(cid, p) in w.log + [];
      assert RedeemedIn(w.log, cid);
    }
    if l.refunded {
      var k :| 0 <= k < |w.log| && w.log[k].LogRefund? && w.log[k].contractId == cid;
      assert Backed(w, w.log[k]);
    }
    if s.refunded {
      assert LogRefund(cid) in w.log + [];
      assert RefundedIn(w.log, cid);
    }
  }

  /** After any history the index built from the log agrees with storage, lock by lock. */
  lemma IndexAgreesWithStorage(w: World, chain: U64)
    requires WorldInv(w)
    ensures Agrees(Replay(map[], chain, w.log), chain, w.swaps)
  {
    var m := Replay(map[], chain, w.log);
    ReplayIndexes(chain, w.log);
    forall h, l | h in m && l in m[h].legs
      ensures l.contractId in w.swaps && w.swaps[l.contractId].hashlock == h
              && l == LegOf(chain, l.contractId, w.swaps[l.contractId])
    {
      assert RecordTold(chain, w.log, h, m[h]);
      FiledLegMatchesStorage(w, m, chain, h, l);
    }
    forall cid | cid in w.swaps
      ensures w.swaps[cid].hashlock in m && LegOf(chain, cid, w.swaps[cid]) in m[w.swaps[cid].hashlock].legs
    {
      var h := w.swaps[cid].hashlock;
      assert Recorded(w.log, [], cid, w.swaps[cid]);
      var e := Creation(cid, w.swaps[cid]);
      assert e in w.log;
      assert EntryKept(m, chain, e);
      var i :| 0 <= i < |m[h].legs| && m[h].legs[i].Is(chain, cid);
      assert m[h].legs[i] in m[h].legs;
    }
    forall h, i, j | h in m && 0 <= i < j < |m[h].legs| ensures m[h].legs[i] != m[h].legs[j] {
      assert RecordTold(chain, w.log, h, m[h]);
    }
  }

  lemma HistoryIndexAgrees(w: World, txs: seq<Transaction>, chain: U64)
    requires Genesis(w)
    ensures var h := History(w, txs);
      Agrees(Replay(map[], chain, h.log), chain, h.swaps)
  {
    HistoryKeepsInv(w, txs);
    IndexAgreesWithStorage(History(w, txs), chain);
  }

  lemma ReplayFilesOnce(w: World, chain: U64)
    requires WorldInv(w)
    ensures FiledOnce(Replay(map[], chain, w.log))
  {
    var m := Replay(map[], chain, w.log);
    ReplayIndexes(chain, w.log);
    forall h, i, j | h in m && 0 <= i < j < |m[h].legs| ensures Name(m, h, i) != Name(m, h, j) {
      assert RecordTold(chain, w.log, h, m[h]);
    }
  }

  /** So the watchdog names exactly the open locks whose time is up, each once. */
  method WatchdogReport(tracker: SwapTracker, ghost w: World, chain: U64, now: U64) returns (out: seq<(Word, U64, Word)>)
    requires WorldInv(w) && tracker.swaps == Replay(map[], chain, w.log)
    ensures forall h, c, cid :: (h, c, cid) in out <==>
      c == chain && cid in w.swaps && w.swaps[cid].hashlock == h && w.swaps[cid].Active() && w.swaps[cid].timelock <= now
    ensures NoDoubles(out)
  {
    out := tracker.TimedOut(now);
    var m := tracker.swaps;
    IndexAgreesWithStorage(w, chain);
    ReplayFilesOnce(w, chain);
    forall h, c, cid ensures (h, c, cid) in out <==>
      c == chain && cid in w.swaps && w.swaps[cid].hashlock == h && w.swaps[cid].Active() && w.swaps[cid].timelock <= now
    {
      if (h, c, cid) in out {
        var k, i :| Overdue(m, now, k, i) && (h, c, cid) == Name(m, k, i);
        assert m[k].legs[i] in m[k].legs;
      }
      if c == chain && cid in w.swaps && w.swaps[cid].hashlock == h && w.swaps[cid].Active() && w.swaps[cid].timelock <= now {
        var i :| 0 <= i < |m[h].legs| && m[h].legs[i] == LegOf(chain, cid, w.swaps[cid]);
        assert Overdue(m, now, h, i);
        assert (h, c, cid) == Name(m, h, i);
      }
    }
  }

  // -------- reading a window twice --------

  /** The last redeem entry under the hashlock shows `p`. */
  ghost predicate LatestAt(log: seq<Event>, h: Word, p: Word, i: int) {
    && 0 <= i < |log| && Reveals(log[i], p) && SHA256(p) == h
    && forall j :: i < j < |log| && log[j].LogRedeem? ==> SHA256(log[j].preimage) != h
  }

  ghost predicate LatestSecret(log: seq<Event>, h: Word, p: Option<Word>) {
    match p
    case Some(p) => exists i :: LatestAt(log, h, p, i)
    case None => forall j :: 0 <= j < |log| && log[j].LogRedeem? ==> SHA256(log[j].preimage) != h
  }

  lemma LatestSecretAfter(log: seq<Event>, e: Event, h: Word, p: Option<Word>)
    requires LatestSecret(log, h, p)
    ensures LatestSecret(log + [e], h, if e.LogRedeem? && SHA256(e.preimage) == h then Some(e.preimage) else p)
  {
    var log1 := log + [e];
    if e.LogRedeem? && SHA256(e.preimage) == h {
      assert LatestAt(log1, h, e.preimage, |log|);
    } else if p.Some? {
      var i :| LatestAt(log, h, p.value, i);
      assert LatestAt(log1, h, p.value, i);
    }
  }

  lemma {:induction false} DispatchKeepsLatest(m: Index, chain: U64, log: seq<Event>, e: Event, h: Word)
    requires WellFormedLog(log + [e]) && Indexes(m, chain, log) && LatestSecret(log, h, RecordAt(m, h).preimage)
    ensures LatestSecret(log + [e], h, RecordAt(Dispatch(m, chain, e), h).preimage)
  {
    PrefixWellFormed(log, e);
    LatestSecretAfter(log, e, h, RecordAt(m, h).preimage);
    if e.LogRedeem? {
      var j :| 0 <= j < |log| && log[j].LogNewSwap? && log[j].contractId == e.contractId && log[j].hashlock == SHA256(e.preimage);
      assert EntryKept(m, chain, log[j]);
    }
  }

  /** Of several preimages shown under one hashlock the index holds the one shown last. */
  lemma {:induction false} PreimageIsTheLatest(chain: U64, log: seq<Event>, h: Word)
    requires WellFormedLog(log)
    ensures LatestSecret(log, h, RecordAt(Replay(map[], chain, log), h).preimage)
    decreases |log|
  {
    if log != [] {
      var n := |log| - 1;
      assert log == log[..n] + [log[n]];
      PrefixWellFormed(log[..n], log[n]);
      PreimageIsTheLatest(chain, log[..n], h);
      ReplayIndexes(chain, log[..n]);
      DispatchKeepsLatest(Replay(map[], chain, log[..n]), chain, log[..n], log[n], h);
    }
  }

  /** No two redeem entries show two preimages of one hash. */
  ghost predicate OneSecretShown(log: seq<Event>) {
    forall i, j :: 0 <= i < |log| && 0 <= j < |log| && log[i].LogRedeem? && log[j].LogRedeem? ==>
      SHA256(log[i].preimage) == SHA256(log[j].preimage) ==> log[i].preimage == log[j].preimage
  }

  lemma EntryAgainChangesNothing(m: Index, chain: U64, log: seq<Event>, i: nat)
    requires WellFormedLog(log) && Indexes(m, chain, log) && i < |log| && OneSecretShown(log)
    ensures Dispatch(m, chain, log[i]) == m
  {
    var e := log[i];
    assert EntryKept(m, chain, e);
    match e
    case LogNewSwap(cid, _, _, _, amount, h, timelock) =>
      assert m[h := m[h]] == m;
    case LogRedeem(cid, p) =>
      var h := SHA256(p);
      var r := m[h];
      assert RecordTold(chain, log, h, r);
      assert RedeemedIn(log, cid);
      forall k | 0 <= k < |r.legs| ensures Redeemed(r.legs, chain, cid)[k] == r.legs[k] {
        assert LegTold(chain, log, h, r.legs[k]);
      }
      assert Redeemed(r.legs, chain, cid) == r.legs;
      assert m[h := r] == m;
    case LogRefund(cid) =>
      var found := HashlockOf(m, chain, cid);
      if found.Some? {
        var r := m[found.value];
        assert RecordTold(chain, log, found.value, r);
        assert RefundedIn(log, cid);
        forall k | 0 <= k < |r.legs| ensures RefundedLegs(r.legs, chain, cid)[k] == r.legs[k] {
          assert LegTold(chain, log, found.value, r.legs[k]);
        }
        assert RefundedLegs(r.legs, chain, cid) == r.legs;
        assert m[found.value := r] == m;
      }
  }

  lemma {:induction false} SeenEntriesChangeNothing(m: Index, chain: U64, log: seq<Event>, again: seq<Event>)
    requires WellFormedLog(log) && Indexes(m, chain, log) && OneSecretShown(log)
    requires forall e :: e in again ==> e in log
    ensures Replay(m, chain, again) == m
    decreases |again|
  {
    if again != [] {
      var n := |again| - 1;
      SeenEntriesChangeNothing(m, chain, log, again[..n]);
      assert again[n] in log;
      var i :| 0 <= i < |log| && log[i] == again[n];
      EntryAgainChangesNothing(m, chain, log, i);
    }
  }

  /** Polling any window of the log a second time leaves the index as it was. */
  lemma ReplayAgainChangesNothing(chain: U64, log: seq<Event>, from: nat, till: nat)
    requires WellFormedLog(log) && from <= till <= |log|
    requires OneSecretShown(log)
    ensures Replay(Replay(map[], chain, log), chain, log[from..till]) == Replay(map[], chain, log)
  {
    ReplayIndexes(chain, log);
    SeenEntriesChangeNothing(Replay(map[], chain, log), chain, log, log[from..till]);
  }
}
