/**
 * One wallet, two chains and everybody else. The wallet runs its executor; the
 * chains take any transactions from anyone in between, at any of the points
 * where the executor waits for the network; the clock never runs back.
 */
module SwapSystem {
  import opened Primitives
  import opened Encoding
  import opened Orders
  import opened Ledger
  import opened LedgerInvariants
  import opened LedgerTheorems
  import opened TrackerAgreement
  import opened Observer
  import opened Verify
  import opened StateMachine
  import opened Executor

  // -------- the machine --------

  /** How the wallet locks: straight into the HTLC, or with a signed order through Settlement. */
  datatype Path =
    | Direct
    | ViaSettlement(
        sellChainId: U64, buyToken: Address, buyChainId: U64, buyAmount: U128,
        validUntil: U64, nonce: U64, signature: seq<Byte>)

  datatype Config = Config(account: Address, path: Path)

  /** Where the executor is inside `step`: between steps, planned, or about to broadcast. */
  datatype Pc = Idle | Planned(action: NextAction) | Ready(tx: TxRequest)

  /**
   * `shown` holds the preimages of redeem transactions the wallet has broadcast,
   * mined or not; `done` its transactions that took effect.
   */
  datatype Sys = Sys(
    cfg: Config,
    now: U64,
    own: Node,
    cp: Node,
    wallet: Wallet,
    pc: Pc,
    shown: set<Word>,
    done: seq<TxRequest>)

  /** What the rest of the world does: time passes, or a transaction is mined. */
  datatype Move = Tick(till: U64) | MineOwn(call: Call) | MineCp(call: Call)

  /** Which of a refresh's reads goes unanswered, if any. */
  datatype Fault = NoFault | PollFault | ReadFault | OwnFault

  datatype Happening =
    | Outside(move: Move)
    // the executor reads clock, logs, storage and own logs, with moves before each later read
    | Observe(beforePoll: seq<Move>, beforeRead: seq<Move>, beforeOwn: seq<Move>, entropy: Word, fault: Fault)
    // the broadcast is mined now or not, and a receipt for it comes back or not
    | Send(mined: bool, receipt: bool)

  function News(w: World, w1: World): seq<Event> {
    if |w.log| <= |w1.log| then w1.log[|w.log|..] else []
  }

  /** One more block, with one transaction that succeeds or reverts. */
  function Mine(n: Node, now: U64, c: Call): Node {
    var w1 := After(n.world, now, c);
    Node(w1, n.blocks + [News(n.world, w1)])
  }

  function Moved(s: Sys, m: Move): Sys {
    match m
    case Tick(till) => s.(now := if till > s.now then till else s.now)
    case MineOwn(c) => s.(own := Mine(s.own, s.now, c))
    case MineCp(c) => s.(cp := Mine(s.cp, s.now, c))
  }

  function MovedAll(s: Sys, ms: seq<Move>): Sys
    decreases |ms|
  {
    if ms == [] then s else MovedAll(Moved(s, ms[0]), ms[1..])
  }

  /** The three later instants of a refresh that starts in `s`. */
  function Instants(s: Sys, h: Happening): (Sys, Sys, Sys)
    requires h.Observe?
  {
    var s1 := MovedAll(s, h.beforePoll);
    var s2 := MovedAll(s1, h.beforeRead);
    (s1, s2, MovedAll(s2, h.beforeOwn))
  }

  function ViewOf(now: U64, polled: Node, read: Node, own: Node, fault: Fault): View {
    View(now,
         if fault.PollFault? then None else Some(polled.blocks),
         if fault.ReadFault? then None else Some(read),
         if fault.OwnFault? then None else Some(own.blocks))
  }

  function Seen(s: Sys, h: Happening): View
    requires h.Observe?
  {
    var (s1, s2, s3) := Instants(s, h);
    ViewOf(s.now, s1.cp, s2.cp, s3.own, h.fault)
  }

  function PcOf(p: Progress): Pc {
    match p
    case Stop(_) => Idle
    case Recheck(planned) => Planned(planned)
    case Broadcast(tx) => Ready(tx)
  }

  /** The system right after a refresh, nothing decided yet. */
  ghost function RefreshedSys(s: Sys, h: Happening): Sys
    requires h.Observe? && s.wallet.ctx.hashlock.Some?
  {
    Instants(s, h).2.(wallet := Refreshed(s.wallet, Seen(s, h)), pc := Idle)
  }

  /** Decide on what was just observed: plan, or confirm what was planned. */
  function Decided(s: Sys, was: Pc, entropy: Word): Sys {
    var (w, p) := if was.Planned? then Confirm(s.wallet, was.action) else Plan(s.wallet, entropy);
    s.(wallet := w, pc := PcOf(p))
  }

  ghost function ObservedSys(s: Sys, h: Happening): Sys
    requires h.Observe?
  {
    if s.pc.Ready? then Instants(s, h).2
    else if s.wallet.ctx.hashlock.None? then
      Instants(s, h).2.(wallet := s.wallet.(ctx := s.wallet.ctx.(now := s.now)), pc := Idle)
    else if !Answered(s.wallet, Seen(s, h)) then RefreshedSys(s, h)
    else Decided(RefreshedSys(s, h), s.pc, h.entropy)
  }

  /** An account without code takes whatever it is paid. */
  const TAKES: Reply := Reply([], true)

  function LockOrder(cfg: Config, tx: TxRequest): Terms
    requires cfg.path.ViaSettlement? && tx.LockTx?
  {
    Terms(cfg.account, tx.token, cfg.path.sellChainId, tx.amount, cfg.path.buyToken, cfg.path.buyChainId,
          cfg.path.buyAmount, cfg.path.validUntil, cfg.path.nonce)
  }

  function CallOf(cfg: Config, tx: TxRequest): Call {
    match tx
    case LockTx(recipient, token, amount, hashlock, timelock) =>
      var value := if token == ETH then amount else 0;
      if cfg.path.Direct? then Lock(cfg.account, value, recipient, token, amount, hashlock, timelock)
      else SettleLeg(cfg.account, value, LockOrder(cfg, tx), cfg.path.signature, recipient, hashlock, timelock)
    case RedeemTx(cid, secret) => Call.Redeem(cid, secret, TAKES)
    case RefundTx(cid) => if cfg.path.Direct? then Call.Refund(cfg.account, cid, TAKES) else Call.RefundLeg(cid, TAKES)
  }

  function LockSender(cfg: Config, site: Site): Address {
    if cfg.path.Direct? then cfg.account else site.settlement
  }

  /** The id the executor computes for its own lock. */
  function OwnId(cfg: Config, site: Site, tx: TxRequest): Word
    requires tx.LockTx?
  {
    ContractId(LockSender(cfg, site), tx.recipient, tx.token, tx.amount, tx.hashlock, tx.timelock)
  }

  function Target(s: Sys): Node
    requires s.pc.Ready?
  {
    if s.pc.tx.RedeemTx? then s.cp else s.own
  }

  /** The chains after a broadcast, the wallet not yet told. */
  function Landed(s: Sys, mined: bool): Sys
    requires s.pc.Ready?
  {
    var after := if mined then Mine(Target(s), s.now, CallOf(s.cfg, s.pc.tx)) else Target(s);
    if s.pc.tx.RedeemTx? then s.(cp := after) else s.(own := after)
  }

  predicate Succeeds(s: Sys, mined: bool)
    requires s.pc.Ready?
  {
    mined && Exec(Target(s).world, s.now, CallOf(s.cfg, s.pc.tx)).Ok?
  }

  /**
   * What the wallet makes of the answer. It takes any receipt for success, and
   * none for failure; `done` keeps what really took effect.
   */
  function Told(s: Sys, tx: TxRequest, receipt: bool, tookEffect: bool): Sys {
    var id := if tx.LockTx? then OwnId(s.cfg, s.own.world.site, tx) else tx.contractId;
    s.(wallet := Complete(s.wallet, tx, if receipt then Some(id) else None).0,
       pc := Idle,
       shown := if tx.RedeemTx? then s.shown + {tx.secret} else s.shown,
       done := if tookEffect then s.done + [tx] else s.done)
  }

  function SentSys(s: Sys, mined: bool, receipt: bool): Sys {
    if s.pc.Ready? then Told(Landed(s, mined), s.pc.tx, receipt, Succeeds(s, mined)) else s
  }

  /**
   * A receipt comes back for a transaction that took effect, and for no other.
   * The executor does not look at a receipt's status, so this is an assumption
   * about the network; `Receipts` says what happens without it.
   */
  ghost predicate Truthful(s: Sys, h: Happening) {
    h.Send? && s.pc.Ready? ==> h.receipt == Succeeds(s, h.mined)
  }

  ghost predicate TruthfulRun(s: Sys, hs: seq<Happening>)
    decreases |hs|
  {
    hs != [] ==>
      var n := |hs| - 1;
      TruthfulRun(s, hs[..n]) && Truthful(Run(s, hs[..n]), hs[n])
  }

  ghost function Next(s: Sys, h: Happening): Sys {
    match h
    case Outside(m) => Moved(s, m)
    case Observe(_, _, _, _, _) => ObservedSys(s, h)
    case Send(mined, receipt) => SentSys(s, mined, receipt)
  }

  ghost function Run(s: Sys, hs: seq<Happening>): Sys
    decreases |hs|
  {
    if hs == [] then s else Next(Run(s, hs[..|hs| - 1]), hs[|hs| - 1])
  }

  // -------- chains only move forward --------

  /** What `w`, as it was at time `now` or later, can have become. */
  ghost predicate Grew(w: World, w1: World, now: U64) {
    && w1.site == w.site
    && w.log <= w1.log
    && (forall cid :: cid in w.swaps ==> cid in w1.swaps && SwapGrew(w.swaps[cid], w1.swaps[cid], now))
    && (forall cid :: cid in w.legs ==> cid in w1.legs && w1.legs[cid].maker == w.legs[cid].maker)
  }

  ghost predicate SwapGrew(s: Swap, s1: Swap, now: U64) {
    && s1 == s.(withdrawn := s1.withdrawn, refunded := s1.refunded)
    && (s.withdrawn ==> s1.withdrawn) && (s.refunded ==> s1.refunded)
    && (s1.withdrawn && !s.withdrawn ==> now < s.timelock)
  }

  /** A node is in order: refunds have only happened to locks whose time is up. */
  ghost predicate NodeOk(n: Node, now: U64) {
    && Serves(n)
    && forall cid :: cid in n.world.swaps && n.world.swaps[cid].refunded ==> n.world.swaps[cid].timelock <= now
  }

  ghost predicate NodeGrew(n: Node, n1: Node, now: U64) {
    n.blocks <= n1.blocks && Grew(n.world, n1.world, now)
  }

  lemma GrewTransitive(w: World, w1: World, w2: World, now: U64, later: U64)
    requires Grew(w, w1, now) && Grew(w1, w2, later) && now <= later
    ensures Grew(w, w2, now)
  {
    forall cid | cid in w.swaps ensures cid in w2.swaps && SwapGrew(w.swaps[cid], w2.swaps[cid], now) {
      assert SwapGrew(w.swaps[cid], w1.swaps[cid], now) && SwapGrew(w1.swaps[cid], w2.swaps[cid], later);
    }
  }

  lemma EvolvesGrew(w: World, w1: World, now: U64)
    requires Evolves(w, w1, now)
    ensures Grew(w, w1, now)
  {
    forall cid | cid in w.swaps ensures SwapGrew(w.swaps[cid], w1.swaps[cid], now) {
      assert SwapEvolves(w.swaps[cid], w1.swaps[cid], now);
    }
  }

  lemma BlockAdded(n: Node, w1: World, now: U64)
    requires NodeOk(n, now) && Evolves(n.world, w1, now) && WorldInv(w1)
    ensures var n1 := Node(w1, n.blocks + [News(n.world, w1)]);
      NodeOk(n1, now) && NodeGrew(n, n1, now)
  {
    var blocks := n.blocks + [News(n.world, w1)];
    assert blocks[..|blocks| - 1] == n.blocks;
    EvolvesGrew(n.world, w1, now);
    forall cid | cid in w1.swaps && w1.swaps[cid].refunded ensures w1.swaps[cid].timelock <= now {
      if cid in n.world.swaps {
        assert SwapEvolves(n.world.swaps[cid], w1.swaps[cid], now);
      }
    }
  }

  lemma MineGrows(n: Node, now: U64, c: Call)
    requires NodeOk(n, now)
    ensures NodeOk(Mine(n, now, c), now) && NodeGrew(n, Mine(n, now, c), now)
  {
    ExecEvolves(n.world, now, c);
    BlockAdded(n, After(n.world, now, c), now);
  }

  ghost predicate SysOk(s: Sys) {
    && NodeOk(s.own, s.now) && NodeOk(s.cp, s.now)
    && InStep(s.wallet.own, s.own.blocks) && InStep(s.wallet.cp, s.cp.blocks)
  }

  /** What any stretch of outside moves leaves alone. */
  ghost predicate Outlived(s: Sys, s1: Sys) {
    && s1.cfg == s.cfg && s1.wallet == s.wallet && s1.pc == s.pc && s1.shown == s.shown && s1.done == s.done
    && s.now <= s1.now
    && NodeGrew(s.own, s1.own, s.now) && NodeGrew(s.cp, s1.cp, s.now)
  }

  lemma NodeReplaced(s: Sys, own: Node, cp: Node)
    requires SysOk(s)
    requires NodeOk(own, s.now) && NodeGrew(s.own, own, s.now)
    requires NodeOk(cp, s.now) && NodeGrew(s.cp, cp, s.now)
    ensures SysOk(s.(own := own, cp := cp)) && Outlived(s, s.(own := own, cp := cp))
  {
    InStepLater(s.wallet.own, s.own.blocks, own.blocks);
    InStepLater(s.wallet.cp, s.cp.blocks, cp.blocks);
  }

  lemma NodeItself(n: Node, now: U64)
    ensures NodeGrew(n, n, now)
  {}

  lemma MoveOutlived(s: Sys, m: Move)
    requires SysOk(s)
    ensures SysOk(Moved(s, m)) && Outlived(s, Moved(s, m))
  {
    NodeItself(s.own, s.now);
    NodeItself(s.cp, s.now);
    match m
    case Tick(_) =>
    case MineOwn(c) =>
      MineGrows(s.own, s.now, c);
      NodeReplaced(s, Mine(s.own, s.now, c), s.cp);
    case MineCp(c) =>
      MineGrows(s.cp, s.now, c);
      NodeReplaced(s, s.own, Mine(s.cp, s.now, c));
  }

  lemma OutlivedTransitive(s: Sys, s1: Sys, s2: Sys)
    requires Outlived(s, s1) && Outlived(s1, s2)
    ensures Outlived(s, s2)
  {
    GrewTransitive(s.own.world, s1.own.world, s2.own.world, s.now, s1.now);
    GrewTransitive(s.cp.world, s1.cp.world, s2.cp.world, s.now, s1.now);
  }

  lemma {:induction false} MovesOutlived(s: Sys, ms: seq<Move>)
    requires SysOk(s)
    ensures SysOk(MovedAll(s, ms)) && Outlived(s, MovedAll(s, ms))
    decreases |ms|
  {
    if ms != [] {
      MoveOutlived(s, ms[0]);
      MovesOutlived(Moved(s, ms[0]), ms[1..]);
      OutlivedTransitive(s, Moved(s, ms[0]), MovedAll(s, ms));
    }
  }

  /** Whatever the chains are, outside moves leave the wallet and what it has sent alone. */
  ghost predicate SameWallet(s: Sys, s1: Sys) {
    s1.cfg == s.cfg && s1.wallet == s.wallet && s1.pc == s.pc && s1.shown == s.shown && s1.done == s.done
  }

  lemma {:induction false} MovesKeepWallet(s: Sys, ms: seq<Move>)
    ensures SameWallet(s, MovedAll(s, ms))
    decreases |ms|
  {
    if ms != [] {
      MoveKeepsWallet(s, ms[0]);
      MovesKeepWallet(Moved(s, ms[0]), ms[1..]);
    }
  }

  lemma MoveKeepsWallet(s: Sys, m: Move)
    ensures SameWallet(s, Moved(s, m))
  {}

  lemma InstantsKeepWallet(s: Sys, h: Happening)
    requires h.Observe?
    ensures SameWallet(s, Instants(s, h).2)
  {
    var (s1, s2, _) := Instants(s, h);
    MovesKeepWallet(s, h.beforePoll);
    MovesKeepWallet(s1, h.beforeRead);
    MovesKeepWallet(s2, h.beforeOwn);
  }

  // -------- what the wallet knows is so --------

  ghost predicate NoneOpened(log: seq<Event>, h: Word) {
    forall i :: 0 <= i < |log| && log[i].LogRedeem? ==> SHA256(log[i].preimage) != h
  }

  /** The observed lock is the record stored under `cid`, flags aside. */
  predicate RecordOf(o: ObservedLock, s: Swap) {
    && o.hashlock == s.hashlock && o.token == s.token && o.amount == s.amount
    && o.recipient == s.recipient && o.timelock == s.timelock && o.sender == s.sender
  }

  ghost predicate KnowsCp(s: Sys, h: Word) {
    && (s.wallet.cpCid.Some? ==>
          && Discover(s.wallet.cp, h) == s.wallet.cpCid
          && s.wallet.cpCid.value in s.cp.world.swaps
          && s.cp.world.swaps[s.wallet.cpCid.value].hashlock == h)
    && (s.wallet.ctx.counterpartyLock.Some? ==>
          && s.wallet.cpCid.Some?
          && RecordOf(s.wallet.ctx.counterpartyLock.value, s.cp.world.swaps[s.wallet.cpCid.value]))
  }

  ghost predicate WalletOk(s: Sys, h: Word) {
    && SysOk(s)
    && s.wallet.ctx.hashlock == Some(h)
    && s.wallet.ctx.now <= s.now
    && KnowsCp(s, h)
    && (s.wallet.ctx.revealedSecret.Some? ==> SHA256(s.wallet.ctx.revealedSecret.value) == h)
  }

  lemma MovesKeepKnowledge(s: Sys, s1: Sys, h: Word)
    requires WalletOk(s, h) && Outlived(s, s1) && SysOk(s1)
    ensures WalletOk(s1, h)
  {
    if s.wallet.cpCid.Some? {
      assert SwapGrew(s.cp.world.swaps[s.wallet.cpCid.value], s1.cp.world.swaps[s.wallet.cpCid.value], s.now);
    }
  }

  /** Discovery finds locks that exist, under the hashlock asked for. */
  lemma DiscoveredExists(o: ObserverState, n: Node, h: Word)
    requires Serves(n) && InStep(o, n.blocks) && o.nextBlock == |n.blocks|
    ensures Discover(o, h).Some? ==>
      Discover(o, h).value in n.world.swaps && n.world.swaps[Discover(o, h).value].hashlock == h
  {
    assert n.blocks[..|n.blocks|] == n.blocks;
    IndexAgreesWithStorage(n.world, o.chainId);
    if h in o.index {
      var i := FirstIndex(o.index[h].legs, o.chainId, 0);
      if i < |o.index[h].legs| {
        assert o.index[h].legs[i] in o.index[h].legs;
      }
    }
  }

  /** An observer that has read the whole log knows of every opening of `h`, and reports a real one. */
  lemma RevealedIffOpened(o: ObserverState, n: Node, h: Word)
    requires Serves(n) && InStep(o, n.blocks) && o.nextBlock == |n.blocks|
    ensures Revealed(o, h).Some? <==> !NoneOpened(n.world.log, h)
    ensures Revealed(o, h).Some? ==> SHA256(Revealed(o, h).value) == h
  {
    assert n.blocks[..|n.blocks|] == n.blocks;
    ReplayIndexes(o.chainId, n.world.log);
    if h in o.index {
      assert RecordTold(o.chainId, n.world.log, h, o.index[h]);
    }
    if !NoneOpened(n.world.log, h) {
      var i :| 0 <= i < |n.world.log| && n.world.log[i].LogRedeem? && SHA256(n.world.log[i].preimage) == h;
      assert EntryKept(o.index, o.chainId, n.world.log[i]);
    }
  }
}
