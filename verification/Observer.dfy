/** Reading the other chain: windowed log polling, discovery, and the depth-gated lock read. */
module Observer {
  import opened Primitives
  import opened Ledger
  import opened LedgerInvariants
  import opened Tracker
  import opened TrackerAgreement
  import opened Verify

  // -------- what a node serves --------

  /** A chain as a node serves it: contract state, and the log block by block. */
  datatype Node = Node(world: World, blocks: seq<seq<Event>>)

  function Flatten(blocks: seq<seq<Event>>): seq<Event> {
    if blocks == [] then [] else Flatten(blocks[..|blocks| - 1]) + blocks[|blocks| - 1]
  }

  lemma {:induction false} FlattenAppend(a: seq<seq<Event>>, b: seq<seq<Event>>)
    ensures Flatten(a + b) == Flatten(a) + Flatten(b)
    decreases |b|
  {
    if b == [] {
      assert a + b == a;
    } else {
      assert (a + b)[..|a + b| - 1] == a + b[..|b| - 1];
      FlattenAppend(a, b[..|b| - 1]);
    }
  }

  ghost predicate Serves(n: Node) {
    n.blocks != [] && Flatten(n.blocks) == n.world.log && WorldInv(n.world)
  }

  /** `getSwap`: an unknown id reads as a struct of zeros. */
  function GetSwap(w: World, cid: Word): Swap {
    if cid in w.swaps then w.swaps[cid] else Swap(0, 0, 0, 0, 0, 0, false, false)
  }

  function ObservedFromSwap(s: Swap): ObservedLock {
    ObservedLock(s.hashlock, s.token, s.amount, s.recipient, s.timelock, s.sender,
                 s.sender != 0 && !s.withdrawn && !s.refunded)
  }

  datatype LockObservation = Confirmed(lock: ObservedLock) | Shallow | Absent {
    function ForGate(): Option<ObservedLock> {
      if Confirmed? then Some(lock) else None
    }
  }

  function Confirmations(head: nat, block: nat): nat {
    (if head >= block then head - block else 0) + 1
  }

  predicate Announces(block: seq<Event>, cid: Word) {
    exists i :: 0 <= i < |block| && block[i].LogNewSwap? && block[i].contractId == cid
  }

  /** The first block whose log creates `cid`. */
  function CreationBlock(blocks: seq<seq<Event>>, cid: Word): (r: Option<nat>)
    ensures r.Some? ==> r.value < |blocks| && Announces(blocks[r.value], cid)
                        && forall b :: 0 <= b < r.value ==> !Announces(blocks[b], cid)
    ensures r.None? ==> forall b :: 0 <= b < |blocks| ==> !Announces(blocks[b], cid)
  {
    if blocks == [] then None
    else
      var n := |blocks| - 1;
      var earlier := CreationBlock(blocks[..n], cid);
      if earlier.Some? then earlier
      else if Announces(blocks[n], cid) then Some(n)
      else None
  }

  /** `get_block_number`; a chain always has its genesis block. */
  function Head(blocks: seq<seq<Event>>): nat {
    if blocks == [] then 0 else |blocks| - 1
  }

  function ObserveLock(n: Node, cid: Word, minConfirmations: nat): LockObservation {
    var observed := ObservedFromSwap(GetSwap(n.world, cid));
    if !observed.exists_ then Absent
    else
      var depth := match CreationBlock(n.blocks, cid)
        case Some(b) => Confirmations(Head(n.blocks), b)
        case None => 0;
      if depth >= minConfirmations then Confirmed(observed) else Shallow
  }

  lemma {:induction false} InSomeBlock(blocks: seq<seq<Event>>, e: Event)
    requires e in Flatten(blocks) && e.LogNewSwap?
    ensures exists b :: 0 <= b < |blocks| && Announces(blocks[b], e.contractId)
    decreases |blocks|
  {
    var n := |blocks| - 1;
    if e in blocks[n] {
      var i :| 0 <= i < |blocks[n]| && blocks[n][i] == e;
      assert Announces(blocks[n], e.contractId);
    } else {
      InSomeBlock(blocks[..n], e);
      var b :| 0 <= b < n && Announces(blocks[..n][b], e.contractId);
      assert Announces(blocks[b], e.contractId);
    }
  }

  predicate IsOpen(n: Node, cid: Word) {
    cid in n.world.swaps && n.world.swaps[cid].Active()
  }

  /** The lock's block has at least this many blocks on it, itself counted. */
  ghost predicate DeepEnough(n: Node, cid: Word, minConfirmations: nat) {
    exists b :: 0 <= b < |n.blocks| && Announces(n.blocks[b], cid) && |n.blocks| - b >= minConfirmations
  }

  lemma OpenIsAnnounced(n: Node, cid: Word)
    requires Serves(n) && IsOpen(n, cid)
    ensures exists b :: 0 <= b < |n.blocks| && Announces(n.blocks[b], cid)
    ensures n.world.swaps[cid].sender != 0
  {
    assert SaneSwap(n.world, cid, n.world.swaps[cid]);
    assert Recorded(n.world.log, [], cid, n.world.swaps[cid]);
    InSomeBlock(n.blocks, Creation(cid, n.world.swaps[cid]));
  }

  /**
   * The depth gate, for every depth asked for: a lock is confirmed exactly when it
   * is open in storage right now and buried that deep, shallow when it is open and
   * not, absent otherwise. A confirmed lock is the stored one, field for field.
   */
  lemma DepthGate(n: Node, cid: Word, minConfirmations: nat)
    requires Serves(n)
    ensures var o := ObserveLock(n, cid, minConfirmations);
      && (o.Confirmed? <==> IsOpen(n, cid) && DeepEnough(n, cid, minConfirmations))
      && (o.Shallow? <==> IsOpen(n, cid) && !DeepEnough(n, cid, minConfirmations))
      && (o.Absent? <==> !IsOpen(n, cid))
      && (o.Confirmed? ==> o.lock == ObservedFromSwap(n.world.swaps[cid]) && o.lock.exists_)
  {
    if IsOpen(n, cid) {
      OpenIsAnnounced(n, cid);
    }
  }

  // -------- the observer --------

  datatype ObserverState = ObserverState(index: Index, nextBlock: nat, chainId: U64)

  function Fresh(chainId: U64): ObserverState { ObserverState(map[], 0, chainId) }

  /** `poll` against a node that serves `blocks`. */
  ghost function Polled(o: ObserverState, blocks: seq<seq<Event>>): ObserverState {
    if |blocks| <= o.nextBlock then o
    else ObserverState(Replay(o.index, o.chainId, Flatten(blocks[o.nextBlock..])), |blocks|, o.chainId)
  }

  /** The first leg from `from` on that is on `chain`; past the end if there is none. */
  function FirstIndex(legs: seq<TrackedLeg>, chain: U64, from: nat): (i: nat)
    requires from <= |legs|
    ensures from <= i <= |legs|
    ensures forall j :: from <= j < i ==> legs[j].chainId != chain
    ensures i < |legs| ==> legs[i].chainId == chain
    decreases |legs| - from
  {
    if from == |legs| || legs[from].chainId == chain then from else FirstIndex(legs, chain, from + 1)
  }

  function FirstOn(legs: seq<TrackedLeg>, chain: U64): Option<Word> {
    var i := FirstIndex(legs, chain, 0);
    if i < |legs| then Some(legs[i].contractId) else None
  }

  function Discover(o: ObserverState, h: Word): Option<Word> {
    if h in o.index then FirstOn(o.index[h].legs, o.chainId) else None
  }

  function Revealed(o: ObserverState, h: Word): Option<Word> {
    if h in o.index then o.index[h].preimage else None
  }

  /** `poll` when the node may not answer: then nothing is read and nothing changes. */
  ghost function PolledBy(o: ObserverState, read: Option<seq<seq<Event>>>): ObserverState {
    if read.Some? then Polled(o, read.value) else o
  }

  /** The lock read after a poll; it asks the node only if there is a lock to ask about. */
  function ObservedLeg(o: ObserverState, read: Option<Node>, h: Word, minConfirmations: nat): Option<LockObservation> {
    match Discover(o, h)
    case None => Some(Absent)
    case Some(cid) => if read.Some? then Some(ObserveLock(read.value, cid, minConfirmations)) else None
  }

  class CounterpartyObserver {
    const tracker: SwapTracker
    const chainId: U64
    var nextBlock: nat

    constructor (chainId: U64)
      ensures fresh(tracker) && this.chainId == chainId && State() == Fresh(chainId)
    {
      tracker := new SwapTracker();
      this.chainId := chainId;
      nextBlock := 0;
    }

    ghost function State(): ObserverState
      reads this, tracker
    {
      ObserverState(tracker.swaps, nextBlock, chainId)
    }

    /** Every lock in the logs still to be read keeps one hashlock; the HTLC guarantees it. */
    ghost predicate Readable(blocks: seq<seq<Event>>)
      reads this, tracker
    {
      nextBlock <= |blocks| ==> OneHomeThroughout(tracker.swaps, chainId, Flatten(blocks[nextBlock..]))
    }

    /** `read` is what the node serves, or nothing if a call to it fails. */
    method Poll(read: Option<seq<seq<Event>>>) returns (ok: bool)
      requires read.Some? ==> read.value != []
      modifies this, tracker
      ensures ok == read.Some?
      ensures ok ==> nextBlock == if old(nextBlock) < |read.value| then |read.value| else old(nextBlock)
      ensures !ok || old(Readable(read.value)) ==> State() == PolledBy(old(State()), read)
    {
      if read.None? { return false; }
      var blocks := read.value;
      var head := |blocks| - 1;
      if head < nextBlock { return true; }
      var _ := PollIntoTracker(tracker, chainId, Flatten(blocks[nextBlock..head + 1]));
      assert blocks[nextBlock..head + 1] == blocks[nextBlock..];
      nextBlock := head + 1;
      return true;
    }

    method DiscoverContractId(h: Word) returns (r: Option<Word>)
      ensures r == Discover(State(), h)
    {
      if h !in tracker.swaps { return None; }
      return FirstOn(tracker.swaps[h].legs, chainId);
    }

    /** `node` is what the getSwap read sees, which may be later than what the poll saw; no answer, no observation. */
    method Observe(read: Option<seq<seq<Event>>>, node: Option<Node>, h: Word, minConfirmations: nat)
      returns (r: Option<LockObservation>)
      requires read.Some? ==> read.value != []
      modifies this, tracker
      ensures read.None? ==> r == None
      ensures read.Some? ==> r == ObservedLeg(State(), node, h, minConfirmations)
      ensures read.None? || old(Readable(read.value)) ==> State() == PolledBy(old(State()), read)
    {
      var polled := Poll(read);
      if !polled { return None; }
      var found := DiscoverContractId(h);
      if found.None? { return Some(Absent); }
      if node.None? { return None; }
      return Some(ObserveLock(node.value, found.value, minConfirmations));
    }

    method RevealedSecret(h: Word) returns (r: Option<Word>)
      ensures r == Revealed(State(), h)
    {
      return tracker.PreimageFor(h);
    }
  }

  // -------- windows against one replay --------

  ghost function PolledAll(o: ObserverState, chain: seq<seq<Event>>, heads: seq<nat>): ObserverState
    requires forall i :: 0 <= i < |heads| ==> heads[i] < |chain|
    decreases |heads|
  {
    if heads == [] then o
    else Polled(PolledAll(o, chain, heads[..|heads| - 1]), chain[..heads[|heads| - 1] + 1])
  }

  /** The log entries those polls fetched, in the order they were fetched. */
  function Fetched(chain: seq<seq<Event>>, heads: seq<nat>): (r: (seq<Event>, nat))
    requires forall i :: 0 <= i < |heads| ==> heads[i] < |chain|
    ensures r.1 <= |chain|
    decreases |heads|
  {
    if heads == [] then ([], 0)
    else
      var (seen, next) := Fetched(chain, heads[..|heads| - 1]);
      var head := heads[|heads| - 1];
      if head < next then (seen, next)
      else (seen + Flatten(chain[next..head + 1]), head + 1)
  }

  /** An observer that has read the first `nextBlock` blocks knows what one replay of them gives. */
  ghost predicate InStep(o: ObserverState, chain: seq<seq<Event>>) {
    o.nextBlock <= |chain| && o.index == Replay(map[], o.chainId, Flatten(chain[..o.nextBlock]))
  }

  lemma PollStaysInStep(o: ObserverState, chain: seq<seq<Event>>, head: nat)
    requires InStep(o, chain) && head < |chain|
    ensures InStep(Polled(o, chain[..head + 1]), chain)
  {
    if o.nextBlock <= head {
      var seen, window := chain[..o.nextBlock], chain[o.nextBlock..head + 1];
      assert chain[..head + 1][o.nextBlock..] == window;
      assert chain[..head + 1] == seen + window;
      FlattenAppend(seen, window);
      ReplayAppend(map[], o.chainId, Flatten(seen), Flatten(window));
    }
  }

  /** One past the highest head so far. */
  ghost predicate Reached(heads: seq<nat>, next: nat) {
    && (forall i :: 0 <= i < |heads| ==> heads[i] < next)
    && (if heads == [] then next == 0 else exists i :: 0 <= i < |heads| && heads[i] + 1 == next)
  }

  lemma OneMoreHead(heads: seq<nat>, next: nat, head: nat)
    requires Reached(heads, next)
    ensures Reached(heads + [head], if head < next then next else head + 1)
  {
    var more := heads + [head];
    if head < next {
      assert heads != [] || next == 0;
      var i :| 0 <= i < |heads| && heads[i] + 1 == next;
      assert more[i] + 1 == next;
    } else {
      assert more[|heads|] + 1 == head + 1;
    }
  }

  lemma PollGoesTo(o: ObserverState, chain: seq<seq<Event>>, head: nat)
    requires head < |chain|
    ensures Polled(o, chain[..head + 1]).nextBlock == if head < o.nextBlock then o.nextBlock else head + 1
  {}

  lemma {:induction false} WindowsReachTheHead(chainId: U64, chain: seq<seq<Event>>, heads: seq<nat>)
    requires forall i :: 0 <= i < |heads| ==> heads[i] < |chain|
    ensures Reached(heads, PolledAll(Fresh(chainId), chain, heads).nextBlock)
    decreases |heads|
  {
    if heads != [] {
      var n := |heads| - 1;
      var before := PolledAll(Fresh(chainId), chain, heads[..n]);
      WindowsReachTheHead(chainId, chain, heads[..n]);
      OneMoreHead(heads[..n], before.nextBlock, heads[n]);
      PollGoesTo(before, chain, heads[n]);
      assert heads == heads[..n] + [heads[n]];
    }
  }

  lemma {:induction false} WindowsStayInStep(chainId: U64, chain: seq<seq<Event>>, heads: seq<nat>)
    requires forall i :: 0 <= i < |heads| ==> heads[i] < |chain|
    ensures var o := PolledAll(Fresh(chainId), chain, heads); InStep(o, chain) && o.chainId == chainId
    decreases |heads|
  {
    if heads != [] {
      var n := |heads| - 1;
      WindowsStayInStep(chainId, chain, heads[..n]);
      PollStaysInStep(PolledAll(Fresh(chainId), chain, heads[..n]), chain, heads[n]);
    }
  }

  lemma {:induction false} WindowsFetchOnce(chainId: U64, chain: seq<seq<Event>>, heads: seq<nat>)
    requires forall i :: 0 <= i < |heads| ==> heads[i] < |chain|
    ensures var next := PolledAll(Fresh(chainId), chain, heads).nextBlock;
      next <= |chain| && Fetched(chain, heads) == (Flatten(chain[..next]), next)
    decreases |heads|
  {
    if heads != [] {
      var n := |heads| - 1;
      var head, next := heads[n], PolledAll(Fresh(chainId), chain, heads[..n]).nextBlock;
      WindowsFetchOnce(chainId, chain, heads[..n]);
      if next <= head {
        assert chain[..head + 1] == chain[..next] + chain[next..head + 1];
        FlattenAppend(chain[..next], chain[next..head + 1]);
      }
    }
  }

  /**
   * Whatever heads a node reports, rising or falling, the windows together fetch
   * every entry of the blocks up to the highest head exactly once and in order, and
   * the index is the one a single replay from block zero would give.
   */
  lemma WindowsAreOneReplay(chainId: U64, chain: seq<seq<Event>>, heads: seq<nat>)
    requires forall i :: 0 <= i < |heads| ==> heads[i] < |chain|
    ensures var o := PolledAll(Fresh(chainId), chain, heads);
      && InStep(o, chain) && o.chainId == chainId
      && Fetched(chain, heads) == (Flatten(chain[..o.nextBlock]), o.nextBlock)
      && Reached(heads, o.nextBlock)
  {
    WindowsStayInStep(chainId, chain, heads);
    WindowsFetchOnce(chainId, chain, heads);
    WindowsReachTheHead(chainId, chain, heads);
  }

  lemma {:induction false} PrefixesWellFormed(log: seq<Event>, n: nat)
    requires WellFormedLog(log) && n <= |log|
    ensures WellFormedLog(log[..n])
    decreases |log|
  {
    if n == |log| {
      assert log[..n] == log;
    } else {
      var last := |log| - 1;
      assert log == log[..last] + [log[last]];
      PrefixWellFormed(log[..last], log[last]);
      PrefixesWellFormed(log[..last], n);
      assert log[..last][..n] == log[..n];
    }
  }

  lemma PrefixHasOneHome(chain: U64, seen: seq<Event>, rest: seq<Event>, n: nat)
    requires WellFormedLog(seen + rest) && n <= |rest|
    ensures OneHome(Replay(Replay(map[], chain, seen), chain, rest[..n]))
  {
    var log := seen + rest[..n];
    assert log == (seen + rest)[..|seen| + n];
    PrefixesWellFormed(seen + rest, |seen| + n);
    ReplayAppend(map[], chain, seen, rest[..n]);
    ReplayIndexes(chain, log);
    IndexHasOneHome(Replay(map[], chain, log), chain, log);
  }

  /** On the HTLC's own log the order of the tracker's hash map never shows. */
  lemma OwnLogIsReadable(o: ObserverState, blocks: seq<seq<Event>>)
    requires InStep(o, blocks) && WellFormedLog(Flatten(blocks))
    ensures OneHomeThroughout(o.index, o.chainId, Flatten(blocks[o.nextBlock..]))
  {
    var seen, rest := Flatten(blocks[..o.nextBlock]), Flatten(blocks[o.nextBlock..]);
    assert blocks == blocks[..o.nextBlock] + blocks[o.nextBlock..];
    FlattenAppend(blocks[..o.nextBlock], blocks[o.nextBlock..]);
    forall n | 0 <= n <= |rest| ensures OneHome(Replay(o.index, o.chainId, rest[..n])) {
      PrefixHasOneHome(o.chainId, seen, rest, n);
    }
  }

  lemma PolledIsInStep(o: ObserverState, blocks: seq<seq<Event>>)
    requires InStep(o, blocks) && blocks != []
    ensures InStep(Polled(o, blocks), blocks) && Polled(o, blocks).nextBlock == |blocks|
    ensures Polled(o, blocks).index == Replay(map[], o.chainId, Flatten(blocks))
  {
    PollStaysInStep(o, blocks, |blocks| - 1);
    assert blocks[..|blocks|] == blocks;
  }

  lemma InStepLater(o: ObserverState, blocks: seq<seq<Event>>, later: seq<seq<Event>>)
    requires InStep(o, blocks) && blocks <= later
    ensures InStep(o, later)
  {
    assert later[..o.nextBlock] == blocks[..o.nextBlock];
  }

  // -------- what an observer learned it never unlearns --------

  ghost predicate LegsKept(legs: seq<TrackedLeg>, legs1: seq<TrackedLeg>) {
    && |legs| <= |legs1|
    && forall i :: 0 <= i < |legs| ==> legs1[i].chainId == legs[i].chainId && legs1[i].contractId == legs[i].contractId
  }

  ghost predicate RecordGrows(r: SwapRecord, r1: SwapRecord) {
    LegsKept(r.legs, r1.legs) && (r.preimage.Some? ==> r1.preimage.Some?)
  }

  ghost predicate IndexGrows(m: Index, m1: Index) {
    forall h :: h in m ==> h in m1 && RecordGrows(m[h], m1[h])
  }

  ghost predicate PreimagesOpen(m: Index) {
    forall h :: h in m && m[h].preimage.Some? ==> SHA256(m[h].preimage.value) == h
  }

  lemma DispatchGrows(m: Index, chain: U64, e: Event)
    ensures IndexGrows(m, Dispatch(m, chain, e))
    ensures PreimagesOpen(m) ==> PreimagesOpen(Dispatch(m, chain, e))
  {}

  lemma {:induction false} ReplayGrows(m: Index, chain: U64, log: seq<Event>)
    ensures IndexGrows(m, Replay(m, chain, log))
    ensures PreimagesOpen(m) ==> PreimagesOpen(Replay(m, chain, log))
    decreases |log|
  {
    if log != [] {
      var n := |log| - 1;
      var m1 := Replay(m, chain, log[..n]);
      ReplayGrows(m, chain, log[..n]);
      DispatchGrows(m1, chain, log[n]);
      var m2 := Dispatch(m1, chain, log[n]);
      forall h | h in m ensures h in m2 && RecordGrows(m[h], m2[h]) {
        assert RecordGrows(m[h], m1[h]) && RecordGrows(m1[h], m2[h]);
      }
    }
  }

  lemma FirstStaysFirst(legs: seq<TrackedLeg>, legs1: seq<TrackedLeg>, chain: U64)
    requires LegsKept(legs, legs1) && FirstOn(legs, chain).Some?
    ensures FirstOn(legs1, chain) == FirstOn(legs, chain)
  {
    var i, k := FirstIndex(legs, chain, 0), FirstIndex(legs1, chain, 0);
    assert legs1[i].chainId == legs[i].chainId;
    assert forall j :: 0 <= j < i ==> legs1[j].chainId == legs[j].chainId;
    assert i == k;
  }

  /**
   * Over all polls a discovered contract id never changes, a revealed secret
   * never disappears, and a revealed secret opens its hashlock.
   */
  lemma PollRemembers(o: ObserverState, blocks: seq<seq<Event>>, h: Word)
    ensures var o1 := Polled(o, blocks);
      && (Discover(o, h).Some? ==> Discover(o1, h) == Discover(o, h))
      && (Revealed(o, h).Some? ==> Revealed(o1, h).Some?)
      && (PreimagesOpen(o.index) ==>
            PreimagesOpen(o1.index) && (Revealed(o1, h).Some? ==> SHA256(Revealed(o1, h).value) == h))
  {
    if o.nextBlock < |blocks| {
      ReplayGrows(o.index, o.chainId, Flatten(blocks[o.nextBlock..]));
      if h in o.index {
        var o1 := Polled(o, blocks);
        assert RecordGrows(o.index[h], o1.index[h]);
        if Discover(o, h).Some? {
          FirstStaysFirst(o.index[h].legs, o1.index[h].legs, o.chainId);
        }
      }
    }
  }

  // -------- which lock is discovered --------

  predicate FiledUnder(e: Event, h: Word) { e.LogNewSwap? && e.hashlock == h }

  /** `cid` is the lock announced first under `h`. */
  ghost predicate FirstLock(log: seq<Event>, h: Word, cid: Word) {
    exists i :: FirstFiledAt(log, h, i) && log[i].contractId == cid
  }

  ghost predicate FirstFiledAt(log: seq<Event>, h: Word, i: int) {
    0 <= i < |log| && FiledUnder(log[i], h) && forall j :: 0 <= j < i ==> !FiledUnder(log[j], h)
  }

  lemma FirstLockStays(log: seq<Event>, later: seq<Event>, h: Word, cid: Word)
    requires log <= later && FirstLock(log, h, cid)
    ensures FirstLock(later, h, cid)
  {
    var i :| FirstFiledAt(log, h, i) && log[i].contractId == cid;
    assert FirstFiledAt(later, h, i);
  }

  lemma {:induction false} NothingFiled(chain: U64, log: seq<Event>, h: Word)
    requires forall i :: 0 <= i < |log| ==> !FiledUnder(log[i], h)
    ensures RecordAt(Replay(map[], chain, log), h).legs == []
    decreases |log|
  {
    if log != [] {
      NothingFiled(chain, log[..|log| - 1], h);
    }
  }

  lemma {:induction false} FirstFiled(log: seq<Event>, h: Word) returns (i: nat)
    requires exists k :: 0 <= k < |log| && FiledUnder(log[k], h)
    ensures FirstFiledAt(log, h, i)
    decreases |log|
  {
    var n := |log| - 1;
    if k :| 0 <= k < n && FiledUnder(log[k], h) {
      assert FiledUnder(log[..n][k], h);
      i := FirstFiled(log[..n], h);
      assert forall j :: 0 <= j < i ==> log[..n][j] == log[j];
    } else {
      i := n;
    }
  }

  /** An index that has read a log leads, under each hashlock, to the lock announced there first. */
  lemma FirstFiledIsDiscovered(o: ObserverState, log: seq<Event>, h: Word, i: int)
    requires o.index == Replay(map[], o.chainId, log) && FirstFiledAt(log, h, i)
    ensures Discover(o, h) == Some(log[i].contractId)
  {
    var before := Replay(map[], o.chainId, log[..i]);
    var at := Dispatch(before, o.chainId, log[i]);
    NothingFiled(o.chainId, log[..i], h);
    assert log[..i + 1][..i] == log[..i] && log[..i + 1][i] == log[i];
    assert at == Replay(map[], o.chainId, log[..i + 1]);
    assert at[h].legs == [LegFrom(o.chainId, log[i])];
    assert log == log[..i + 1] + log[i + 1..];
    ReplayAppend(map[], o.chainId, log[..i + 1], log[i + 1..]);
    ReplayGrows(at, o.chainId, log[i + 1..]);
    assert RecordGrows(at[h], o.index[h]);
    FirstStaysFirst(at[h].legs, o.index[h].legs, o.chainId);
  }

  /** Discovery, in both directions: it finds exactly the first lock in what was read. */
  lemma DiscoversTheFirst(o: ObserverState, log: seq<Event>, h: Word, cid: Word)
    requires o.index == Replay(map[], o.chainId, log)
    ensures Discover(o, h) == Some(cid) <==> FirstLock(log, h, cid)
  {
    if exists k :: 0 <= k < |log| && FiledUnder(log[k], h) {
      var i := FirstFiled(log, h);
      FirstFiledIsDiscovered(o, log, h, i);
      assert forall j :: FirstFiledAt(log, h, j) ==> j == i;
    } else {
      NothingFiled(o.chainId, log, h);
    }
  }

  /**
   * What an observation says, end to end: about the first lock announced under the
   * hashlock in what was polled, by its state and depth where the read sees it.
   */
  lemma ObservesTheFirst(o: ObserverState, log: seq<Event>, h: Word, cid: Word, n: Node, minConfirmations: nat)
    requires o.index == Replay(map[], o.chainId, log) && FirstLock(log, h, cid) && Serves(n)
    ensures var seen := ObservedLeg(o, Some(n), h, minConfirmations);
      && seen.Some?
      && (seen.value.Confirmed? <==> IsOpen(n, cid) && DeepEnough(n, cid, minConfirmations))
      && (seen.value.Shallow? <==> IsOpen(n, cid) && !DeepEnough(n, cid, minConfirmations))
      && (seen.value.Confirmed? ==> seen.value.lock == ObservedFromSwap(n.world.swaps[cid]))
  {
    DiscoversTheFirst(o, log, h, cid);
    DepthGate(n, cid, minConfirmations);
  }

  /** With no lock announced under the hashlock there is nothing to read, and the node is not asked. */
  lemma {:induction false} NothingToObserve(o: ObserverState, log: seq<Event>, h: Word, read: Option<Node>, minConfirmations: nat)
    requires o.index == Replay(map[], o.chainId, log)
    requires forall i :: 0 <= i < |log| ==> !FiledUnder(log[i], h)
    ensures ObservedLeg(o, read, h, minConfirmations) == Some(Absent)
  {
    NothingFiled(o.chainId, log, h);
  }
}
