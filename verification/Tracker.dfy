/** The off-chain index over the HTLC event log, and the watchdog that reads it. */
module Tracker {
  import opened Primitives
  import opened Ledger

  datatype LegKind = First | Second

  datatype TrackedLeg = TrackedLeg(
    chainId: U64,
    contractId: Word,
    hashlock: Word,
    timelock: U64,
    amount: U128,
    redeemed: bool,
    refunded: bool)
  {
    predicate Is(chain: U64, cid: Word) { chainId == chain && contractId == cid }
  }

  datatype SwapRecord = SwapRecord(legs: seq<TrackedLeg>, preimage: Option<Word>) {
    predicate Files(chain: U64, cid: Word) {
      exists i :: 0 <= i < |legs| && legs[i].Is(chain, cid)
    }
  }

  type Index = map<Word, SwapRecord>

  // -------- what each log entry does to the index --------

  function RecordAt(m: Index, h: Word): SwapRecord {
    if h in m then m[h] else SwapRecord([], None)
  }

  function NewSwapFiled(m: Index, chain: U64, cid: Word, h: Word, timelock: U64, amount: U128): Index {
    var r := RecordAt(m, h);
    m[h := if r.Files(chain, cid) then r
           else r.(legs := r.legs + [TrackedLeg(chain, cid, h, timelock, amount, false, false)])]
  }

  function Redeemed(legs: seq<TrackedLeg>, chain: U64, cid: Word): (out: seq<TrackedLeg>)
    ensures |out| == |legs|
    ensures forall i :: 0 <= i < |legs| ==>
      out[i] == if legs[i].Is(chain, cid) then legs[i].(redeemed := true) else legs[i]
  {
    seq(|legs|, i requires 0 <= i < |legs| =>
      if legs[i].Is(chain, cid) then legs[i].(redeemed := true) else legs[i])
  }

  function RefundedLegs(legs: seq<TrackedLeg>, chain: U64, cid: Word): (out: seq<TrackedLeg>)
    ensures |out| == |legs|
    ensures forall i :: 0 <= i < |legs| ==>
      out[i] == if legs[i].Is(chain, cid) then legs[i].(refunded := true) else legs[i]
  {
    seq(|legs|, i requires 0 <= i < |legs| =>
      if legs[i].Is(chain, cid) then legs[i].(refunded := true) else legs[i])
  }

  function RedeemFiled(m: Index, chain: U64, cid: Word, preimage: Word): Index {
    var h := SHA256(preimage);
    if h !in m then m
    else m[h := SwapRecord(Redeemed(m[h].legs, chain, cid), Some(preimage))]
  }

  function RefundFiled(m: Index, chain: U64, cid: Word, h: Word): Index {
    if h !in m then m
    else m[h := m[h].(legs := RefundedLegs(m[h].legs, chain, cid))]
  }

  /** A hashlock the lock is filed under; the index does not say which if there are several. */
  ghost function HashlockOf(m: Index, chain: U64, cid: Word): (r: Option<Word>)
    ensures r.Some? ==> r.value in m && m[r.value].Files(chain, cid)
    ensures r.None? ==> forall h :: h in m ==> !m[h].Files(chain, cid)
  {
    if h :| h in m && m[h].Files(chain, cid) then Some(h) else None
  }

  ghost function Dispatch(m: Index, chain: U64, e: Event): Index {
    match e
    case LogNewSwap(cid, _, _, _, amount, h, timelock) => NewSwapFiled(m, chain, cid, h, timelock, amount)
    case LogRedeem(cid, preimage) => RedeemFiled(m, chain, cid, preimage)
    case LogRefund(cid) =>
      match HashlockOf(m, chain, cid)
      case None => m
      case Some(h) => RefundFiled(m, chain, cid, h)
  }

  /** The index after a run of log entries, oldest first. */
  ghost function Replay(m: Index, chain: U64, log: seq<Event>): Index
    decreases |log|
  {
    if log == [] then m
    else Dispatch(Replay(m, chain, log[..|log| - 1]), chain, log[|log| - 1])
  }

  lemma {:induction false} ReplayAppend(m: Index, chain: U64, a: seq<Event>, b: seq<Event>)
    ensures Replay(m, chain, a + b) == Replay(Replay(m, chain, a), chain, b)
    decreases |b|
  {
    if b == [] {
      assert a + b == a;
    } else {
      assert (a + b)[..|a + b| - 1] == a + b[..|b| - 1];
      ReplayAppend(m, chain, a, b[..|b| - 1]);
    }
  }

  /** No lock is filed under two hashlocks, so the order in which a hash map is walked cannot matter. */
  ghost predicate OneHome(m: Index) {
    forall h, h', chain, cid {:trigger m[h].Files(chain, cid), m[h'].Files(chain, cid)} ::
      h in m && h' in m && m[h].Files(chain, cid) && m[h'].Files(chain, cid) ==> h == h'
  }

  /** `OneHome` at the start and after every entry. */
  ghost predicate OneHomeThroughout(m: Index, chain: U64, log: seq<Event>) {
    forall n :: 0 <= n <= |log| ==> OneHome(Replay(m, chain, log[..n]))
  }

  // -------- the tracker itself --------

  class SwapTracker {
    var swaps: Index

    constructor ()
      ensures swaps == map[]
    {
      swaps := map[];
    }

    method OnNewSwap(chain: U64, cid: Word, h: Word, timelock: U64, amount: U128) returns (kind: LegKind)
      modifies this
      ensures swaps == NewSwapFiled(old(swaps), chain, cid, h, timelock, amount)
      ensures kind.First? <==> RecordAt(old(swaps), h).legs == []
    {
      var record := if h in swaps then swaps[h] else SwapRecord([], None);
      kind := if record.legs == [] then First else Second;
      var i := 0;
      while i < |record.legs| && !record.legs[i].Is(chain, cid)
        invariant 0 <= i <= |record.legs|
        invariant forall j :: 0 <= j < i ==> !record.legs[j].Is(chain, cid)
      {
        i := i + 1;
      }
      if i == |record.legs| {
        record := record.(legs := record.legs + [TrackedLeg(chain, cid, h, timelock, amount, false, false)]);
      }
      swaps := swaps[h := record];
    }

    method OnRedeem(chain: U64, cid: Word, preimage: Word) returns (r: Option<Word>)
      modifies this
      ensures swaps == RedeemFiled(old(swaps), chain, cid, preimage)
      ensures r == if SHA256(preimage) in old(swaps) then Some(SHA256(preimage)) else None
    {
      var h := SHA256(preimage);
      if h !in swaps { return None; }
      var legs := swaps[h].legs;
      for i := 0 to |legs|
        invariant |legs| == |swaps[h].legs|
        invariant forall j :: 0 <= j < |legs| ==>
          legs[j] == if j < i && swaps[h].legs[j].Is(chain, cid) then swaps[h].legs[j].(redeemed := true)
                     else swaps[h].legs[j]
      {
        if legs[i].Is(chain, cid) {
          legs := legs[i := legs[i].(redeemed := true)];
        }
      }
      assert legs == Redeemed(swaps[h].legs, chain, cid);
      swaps := swaps[h := SwapRecord(legs, Some(preimage))];
      return Some(h);
    }

    method OnRefund(chain: U64, cid: Word, h: Word)
      modifies this
      ensures swaps == RefundFiled(old(swaps), chain, cid, h)
    {
      if h in swaps {
        var legs := swaps[h].legs;
        for i := 0 to |legs|
          invariant |legs| == |swaps[h].legs|
          invariant forall j :: 0 <= j < |legs| ==>
            legs[j] == if j < i && swaps[h].legs[j].Is(chain, cid) then swaps[h].legs[j].(refunded := true)
                       else swaps[h].legs[j]
        {
          if legs[i].Is(chain, cid) {
            legs := legs[i := legs[i].(refunded := true)];
          }
        }
        assert legs == RefundedLegs(swaps[h].legs, chain, cid);
        swaps := swaps[h := swaps[h].(legs := legs)];
      }
    }

    /** Walk the map in whatever order it offers its keys. */
    method FindHashlock(chain: U64, cid: Word) returns (r: Option<Word>)
      ensures r.Some? ==> r.value in swaps && swaps[r.value].Files(chain, cid)
      ensures r.None? ==> forall h :: h in swaps ==> !swaps[h].Files(chain, cid)
    {
      var keys := swaps.Keys;
      while keys != {}
        invariant keys <= swaps.Keys
        invariant forall h :: h in swaps && h !in keys ==> !swaps[h].Files(chain, cid)
        decreases |keys|
      {
        var h :| h in keys;
        var record := swaps[h];
        for i := 0 to |record.legs|
          invariant forall j :: 0 <= j < i ==> !record.legs[j].Is(chain, cid)
        {
          if record.legs[i].Is(chain, cid) { return Some(h); }
        }
        keys := keys - {h};
      }
      return None;
    }

    function PreimageFor(h: Word): Option<Word>
      reads this
    {
      if h in swaps then swaps[h].preimage else None
    }

    /** The legs past their timelock that nobody has settled, and no others; each once, if none is filed twice. */
    method TimedOut(now: U64) returns (out: seq<(Word, U64, Word)>)
      ensures forall x :: x in out <==> exists h, i :: Overdue(swaps, now, h, i) && x == Name(swaps, h, i)
      ensures FiledOnce(swaps) ==> NoDoubles(out)
    {
      out := [];
      var keys := swaps.Keys;
      while keys != {}
        invariant keys <= swaps.Keys
        invariant forall x :: x in out <==>
          exists h, i :: h !in keys && Overdue(swaps, now, h, i) && x == Name(swaps, h, i)
        invariant FiledOnce(swaps) ==> NoDoubles(out)
        decreases |keys|
      {
        var h :| h in keys;
        ghost var before := out;
        assert forall x :: x in before ==> x.0 !in keys;
        ghost var rest := keys - {h};
        var legs := swaps[h].legs;
        for i := 0 to |legs|
          invariant forall x :: x in out <==>
            x in before || exists j :: 0 <= j < i && Overdue(swaps, now, h, j) && x == Name(swaps, h, j)
          invariant FiledOnce(swaps) ==> NoDoubles(out)
        {
          if now >= legs[i].timelock && !legs[i].redeemed && !legs[i].refunded {
            assert Overdue(swaps, now, h, i);
            if FiledOnce(swaps) {
              assert forall j :: 0 <= j < i && Overdue(swaps, now, h, j) ==> Name(swaps, h, j) != Name(swaps, h, i);
              assert Name(swaps, h, i) !in out;
            }
            out := out + [(h, legs[i].chainId, legs[i].contractId)];
          }
        }
        forall x ensures x in out <==>
          exists k, i :: k !in rest && Overdue(swaps, now, k, i) && x == Name(swaps, k, i)
        {
          if x in out && x !in before {
            var j :| 0 <= j < |legs| && Overdue(swaps, now, h, j) && x == Name(swaps, h, j);
            assert h !in rest;
          }
          if k, i :| k !in rest && Overdue(swaps, now, k, i) && x == Name(swaps, k, i) {
            assert k == h || k !in keys;
          }
        }
        keys := keys - {h};
      }
    }
  }

  /** No leg is filed twice under one hashlock. */
  ghost predicate FiledOnce(m: Index) {
    forall h, i, j :: h in m && 0 <= i < j < |m[h].legs| ==> Name(m, h, i) != Name(m, h, j)
  }

  ghost predicate NoDoubles(out: seq<(Word, U64, Word)>) {
    forall i, j :: 0 <= i < j < |out| ==> out[i] != out[j]
  }

  ghost predicate Overdue(m: Index, now: U64, h: Word, i: int) {
    h in m && 0 <= i < |m[h].legs| && now >= m[h].legs[i].timelock && !m[h].legs[i].redeemed && !m[h].legs[i].refunded
  }

  ghost function Name(m: Index, h: Word, i: int): (Word, U64, Word)
    requires h in m && 0 <= i < |m[h].legs|
  {
    (h, m[h].legs[i].chainId, m[h].legs[i].contractId)
  }

  /** `poll_into_tracker` once the logs are there: dispatch each entry, count them. */
  method PollIntoTracker(tracker: SwapTracker, chain: U64, logs: seq<Event>) returns (count: nat)
    modifies tracker
    ensures count == |logs|
    ensures OneHomeThroughout(old(tracker.swaps), chain, logs) ==>
      tracker.swaps == Replay(old(tracker.swaps), chain, logs)
  {
    count := 0;
    ghost var start := tracker.swaps;
    assert logs[..|logs|] == logs;
    for n := 0 to |logs|
      invariant count == n
      invariant OneHomeThroughout(start, chain, logs) ==> tracker.swaps == Replay(start, chain, logs[..n])
    {
      assert logs[..n + 1][..n] == logs[..n] && logs[..n + 1][n] == logs[n];
      ghost var before := tracker.swaps;
      match logs[n] {
        case LogNewSwap(cid, _, _, _, amount, h, timelock) =>
          var _ := tracker.OnNewSwap(chain, cid, h, timelock, amount);
        case LogRedeem(cid, preimage) =>
          var _ := tracker.OnRedeem(chain, cid, preimage);
        case LogRefund(cid) =>
          var h := tracker.FindHashlock(chain, cid);
          if OneHome(before) {
            assert h == HashlockOf(before, chain, cid);
          }
          if h.Some? {
            tracker.OnRefund(chain, cid, h.value);
          }
      }
      assert OneHome(before) ==> tracker.swaps == Dispatch(before, chain, logs[n]);
      count := count + 1;
    }
  }
}
