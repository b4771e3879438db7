/**
 * Two honest wallets, one on each side, and everybody else: when the reads are
 * answered and the transactions mined in time, the swap completes.
 */
module Completion {
  import opened Primitives
  import opened Ledger
  import opened LedgerInvariants
  import opened Observer
  import opened Verify
  import opened StateMachine
  import opened Executor
  import opened SwapSystem
  import opened WalletRuns
  import opened WalletTheorems
  import opened MakerSafety
  import opened TakerSafety

  // -------- the agreed lock passes the gate --------

  /** An open lock passes the gate as soon as it is deep enough; if one block is asked for, as soon as its block is there. */
  lemma OpenLockConfirmed(n: Node, cid: Word, minConfirmations: nat)
    requires Serves(n) && IsOpen(n, cid) && (DeepEnough(n, cid, minConfirmations) || minConfirmations <= 1)
    ensures ObserveLock(n, cid, minConfirmations) == Confirmed(ObservedFromSwap(n.world.swaps[cid]))
  {
    OpenIsAnnounced(n, cid);
    DepthGate(n, cid, minConfirmations);
  }

  /** The lock is the one this wallet expects, on timelocks the gap allows. */
  predicate TermsFit(r: Swap, deal: SwapContext) {
    && Some(r.hashlock) == deal.hashlock && r.token == deal.cpToken && r.amount == deal.cpAmount && r.recipient == deal.me
    && (deal.role.Maker? ==> deal.myTimelock < r.timelock && deal.myTimelock + deal.minGap <= r.timelock)
    && (deal.role.Taker? ==> r.timelock < deal.myTimelock && r.timelock + deal.minGap <= deal.myTimelock)
  }

  lemma FittingLockIsSafe(ctx: SwapContext, deal: SwapContext, r: Swap)
    requires SameDeal(ctx, deal) && ctx.counterpartyLock == Some(ObservedFromSwap(r))
    requires TermsFit(r, deal) && r.Active() && r.sender != 0 && ctx.now + deal.minGap <= r.timelock
    ensures ctx.SeesSafeLeg()
  {
    SafeExactly(ctx.Expectation(), ObservedFromSwap(r));
  }

  lemma PollDiscoversFirst(s: Sys, v: View, polled: Node, read: Node, hash: Word, cid: Word)
    requires SysOk(s) && SeenBy(s, v, polled, read) && v.cpBlocks.Some? && FirstLock(polled.world.log, hash, cid)
    ensures Discover(PolledBy(s.wallet.cp, v.cpBlocks), hash) == Some(cid)
  {
    PollsStayInStep(s, v, polled, read);
    FullReadDiscoversFirst(PolledBy(s.wallet.cp, v.cpBlocks), polled, hash, cid);
  }

  lemma FullReadDiscoversFirst(o: ObserverState, n: Node, hash: Word, cid: Word)
    requires Serves(n) && InStep(o, n.blocks) && o.nextBlock == |n.blocks| && FirstLock(n.world.log, hash, cid)
    ensures Discover(o, hash) == Some(cid)
  {
    assert n.blocks[..|n.blocks|] == n.blocks;
    DiscoversTheFirst(o, n.world.log, hash, cid);
  }

  lemma LookSeesSafe(w: Wallet, v: View, read: Node, deal: SwapContext, cid: Word)
    requires w.ctx.hashlock == deal.hashlock && deal.hashlock.Some? && SameDeal(w.ctx, deal) && Answered(w, v)
    requires Discover(PolledBy(w.cp, v.cpBlocks), deal.hashlock.value) == Some(cid) && DeepEnough(read, cid, w.minConfirmations)
    requires v.cpNode.Some? ==> v.cpNode.value == read
    requires Serves(read) && cid in read.world.swaps && read.world.swaps[cid].Active() && read.world.swaps[cid].sender != 0
    requires TermsFit(read.world.swaps[cid], deal) && v.now + deal.minGap <= read.world.swaps[cid].timelock
    ensures Refreshed(w, v).cpCid == Some(cid) && Refreshed(w, v).ctx.SeesSafeLeg()
  {
    OpenLockConfirmed(read, cid, w.minConfirmations);
    FittingLockIsSafe(Refreshed(w, v).ctx, deal, read.world.swaps[cid]);
  }

  /** A refresh that ends in `s`, all reads answered, sees the first lock under the hashlock, and sees it safe. */
  lemma GateOpensAt(s: Sys, v: View, polled: Node, read: Node, deal: SwapContext, cid: Word)
    requires Agreed(deal) && WalletOk(s, deal.hashlock.value) && SameDeal(s.wallet.ctx, deal)
    requires SeenBy(s, v, polled, read) && Answered(s.wallet, v) && DeepEnough(read, cid, s.wallet.minConfirmations)
    requires FirstLock(polled.world.log, deal.hashlock.value, cid)
    requires cid in read.world.swaps && read.world.swaps[cid].Active()
    requires TermsFit(read.world.swaps[cid], deal) && v.now + deal.minGap <= read.world.swaps[cid].timelock
    ensures Upon(s, v).wallet.cpCid == Some(cid) && Upon(s, v).wallet.ctx.SeesSafeLeg()
  {
    PollDiscoversFirst(s, v, polled, read, deal.hashlock.value, cid);
    assert SaneSwap(read.world, cid, read.world.swaps[cid]);
    LookSeesSafe(s.wallet, v, read, deal, cid);
  }

  ghost predicate CluelessLook(h: Happening, hash: Word) {
    h.Observe? && AllClueless(h.beforePoll, hash) && AllClueless(h.beforeRead, hash) && AllClueless(h.beforeOwn, hash)
  }

  /** While nobody knows the secret, and before its timelock, a lock stays open. */
  lemma StaysOpen(n: Node, now: U64, cid: Word, hash: Word)
    requires NodeOk(n, now) && NoneOpened(n.world.log, hash)
    requires cid in n.world.swaps && n.world.swaps[cid].hashlock == hash && now < n.world.swaps[cid].timelock
    ensures n.world.swaps[cid].Active()
  {
    if n.world.swaps[cid].withdrawn {
      WithdrawnWasOpened(n.world, cid);
    }
  }

  /** The other side's lock: first under the hashlock, as agreed. */
  ghost predicate AgreedFirst(w: World, deal: SwapContext, cid: Word)
    requires deal.hashlock.Some?
  {
    FirstLock(w.log, deal.hashlock.value, cid) && cid in w.swaps && TermsFit(w.swaps[cid], deal)
  }

  lemma AgreedFirstStays(w: World, w1: World, now: U64, deal: SwapContext, cid: Word)
    requires deal.hashlock.Some? && AgreedFirst(w, deal, cid) && Grew(w, w1, now)
    ensures AgreedFirst(w1, deal, cid) && w1.swaps[cid].timelock == w.swaps[cid].timelock
  {
    FirstLockStays(w.log, w1.log, deal.hashlock.value, cid);
    assert SwapGrew(w.swaps[cid], w1.swaps[cid], now);
  }

  lemma InstantsStayHidden(s: Sys, h: Happening, hash: Word)
    requires SysOk(s) && Hidden(s, hash) && CluelessLook(h, hash)
    ensures var (s1, s2, s3) := Instants(s, h); Hidden(s1, hash) && Hidden(s2, hash) && Hidden(s3, hash)
  {
    var (s1, s2, _) := Instants(s, h);
    InstantsOutlive(s, h);
    MovesStayHidden(s, h.beforePoll, hash);
    MovesStayHidden(s1, h.beforeRead, hash);
    MovesStayHidden(s2, h.beforeOwn, hash);
  }

  /** Enough time is left on the other side's lock when the refresh ends. */
  ghost predicate TimeLeft(now: U64, deal: SwapContext, timelock: U64) {
    now + deal.minGap <= timelock && now < timelock
  }

  /** When a refresh reads the lock, it is as many blocks deep as the wallet asks for. */
  ghost predicate Buried(s: Sys, h: Happening, cid: Word)
    requires h.Observe?
  {
    DeepEnough(Instants(s, h).1.cp, cid, s.wallet.minConfirmations)
  }

  lemma DeepStays(n: Node, n1: Node, cid: Word, minConfirmations: nat)
    requires n.blocks <= n1.blocks && DeepEnough(n, cid, minConfirmations)
    ensures DeepEnough(n1, cid, minConfirmations)
  {
    var b :| 0 <= b < |n.blocks| && Announces(n.blocks[b], cid) && |n.blocks| - b >= minConfirmations;
    assert n1.blocks[b] == n.blocks[b];
  }

  /** Whatever clueless parties do meanwhile, a full refresh sees the agreed lock safe. */
  lemma GateOpens(s: Sys, h: Happening, deal: SwapContext, cid: Word)
    requires Honest(s, deal) && FullyAnswered(s, h) && Buried(s, h, cid)
    requires Hidden(s, deal.hashlock.value) && CluelessLook(h, deal.hashlock.value)
    requires AgreedFirst(s.cp.world, deal, cid)
    requires TimeLeft(Instants(s, h).2.now, deal, s.cp.world.swaps[cid].timelock)
    ensures RefreshedSys(s, h).wallet.cpCid == Some(cid) && RefreshedSys(s, h).wallet.ctx.SeesSafeLeg()
  {
    var hash := deal.hashlock.value;
    var (s1, s2, s3) := Instants(s, h);
    InstantsOutlive(s, h);
    InstantsStayHidden(s, h, hash);
    InstantsSeen(s, h, hash);
    AgreedFirstStays(s.cp.world, s1.cp.world, s.now, deal, cid);
    AgreedFirstStays(s.cp.world, s2.cp.world, s.now, deal, cid);
    StaysOpen(s2.cp, s2.now, cid, hash);
    GateOpensAt(s3, Seen(s, h), s1.cp, s2.cp, deal, cid);
  }

  // -------- a step among clueless parties --------

  ghost predicate CluelessTurn(t: Turn, hash: Word) {
    && CluelessLook(t.first, hash) && AllClueless(t.pause, hash)
    && CluelessLook(t.second, hash) && AllClueless(t.beforeSend, hash)
  }

  /** Every read is answered, the transaction mined, its receipt received. */
  ghost predicate GoesThrough(s: Sys, t: Turn) { ReadsAll(s, t) && t.mined && t.receipt }

  lemma LookStaysHidden(s: Sys, h: Happening, hash: Word)
    requires SysOk(s) && Hidden(s, hash) && CluelessLook(h, hash)
    ensures Hidden(ObservedSys(s, h), hash)
  {
    InstantsStayHidden(s, h, hash);
    ObservedChainsAre(s, h);
  }

  lemma PausedStaysHidden(s: Sys, t: Turn, deal: SwapContext)
    requires Honest(s, deal) && Hidden(s, deal.hashlock.value) && CluelessTurn(t, deal.hashlock.value)
    ensures Honest(Paused(s, t), deal) && Hidden(Paused(s, t), deal.hashlock.value) && Onward(s, Paused(s, t))
    ensures Honest(ObservedSys(s, t.first), deal) && Hidden(ObservedSys(s, t.first), deal.hashlock.value)
    ensures Paused(s, t).wallet == ObservedSys(s, t.first).wallet && Paused(s, t).pc == ObservedSys(s, t.first).pc
  {
    var s1 := ObservedSys(s, t.first);
    ObserveIsHonest(s, t.first, deal);
    LookStaysHidden(s, t.first, deal.hashlock.value);
    PausedIsHonest(s1, t.pause, deal);
    MovesStayHidden(s1, t.pause, deal.hashlock.value);
    ObservedOnward(s, t.first);
    PausedOnward(s1, t.pause);
    OnwardTransitive(s, s1, Paused(s, t));
  }

  lemma BrinkStaysHidden(s: Sys, t: Turn, deal: SwapContext)
    requires Honest(s, deal) && Hidden(s, deal.hashlock.value) && CluelessTurn(t, deal.hashlock.value)
    ensures Hidden(Brink(s, t), deal.hashlock.value)
  {
    var hash := deal.hashlock.value;
    var s1 := ObservedSys(s, t.first);
    PausedStaysHidden(s, t, deal);
    if s1.pc.Planned? {
      LookStaysHidden(Paused(s, t), t.second, hash);
    }
    RecheckedIsHonest(s1, t, deal);
    MovesStayHidden(Rechecked(s1, t), t.beforeSend, hash);
  }

  /** The clock through a step. */
  lemma FirstLookTime(s: Sys, t: Turn, deal: SwapContext)
    requires Honest(s, deal) && Proper(t)
    ensures Instants(s, t.first).2.now <= Brink(s, t).now
  {
    var s1 := ObservedSys(s, t.first);
    ObserveIsHonest(s, t.first, deal);
    ObservedChainsAre(s, t.first);
    RecheckedOnward(s1, t, deal);
    RecheckedIsHonest(s1, t, deal);
    PausedOnward(Rechecked(s1, t), t.beforeSend);
  }

  lemma SecondLookTime(s: Sys, t: Turn, deal: SwapContext)
    requires Honest(s, deal) && Proper(t) && ObservedSys(s, t.first).pc.Planned?
    ensures Instants(Paused(s, t), t.second).2.now <= Brink(s, t).now
  {
    var s1 := ObservedSys(s, t.first);
    ObserveIsHonest(s, t.first, deal);
    PausedIsHonest(s1, t.pause, deal);
    ObservedChainsAre(Paused(s, t), t.second);
    RecheckedIsHonest(s1, t, deal);
    PausedOnward(Rechecked(s1, t), t.beforeSend);
  }

  // -------- what is planned is confirmed --------

  /** Where the role needs it, the wallet sees a safe leg. */
  ghost predicate MayLock(w: Wallet, deal: SwapContext) {
    Sound(w, deal) && w.state == StartState(deal.role) && (deal.role.Maker? ==> w.ctx.SeesSafeLeg())
  }

  lemma LockIsDecided(s: Sys, was: Pc, entropy: Word, deal: SwapContext)
    requires MayLock(s.wallet, deal) && deal.myAmount > 0
    requires was.Idle? || was == Planned(deal.Lock(deal.hashlock.value))
    ensures Decided(s, was, entropy).wallet == s.wallet
    ensures Decided(s, was, entropy).pc ==
      if was.Idle? then Planned(deal.Lock(deal.hashlock.value)) else Ready(LockRequest(deal))
  {
    GatedOnSafety(s.wallet.state, s.wallet.ctx);
  }

  ghost predicate MayRedeem(w: Wallet, deal: SwapContext, cid: Word) {
    Sound(w, deal) && deal.role.Taker? && w.state.MyLegLocked? && w.cpCid == Some(cid) && w.ctx.SeesSafeLeg()
  }

  lemma RedeemIsDecided(s: Sys, was: Pc, entropy: Word, deal: SwapContext, cid: Word)
    requires MayRedeem(s.wallet, deal, cid)
    requires was.Idle? || was == Planned(NextAction.RedeemCounterpartyLeg(deal.secret.value))
    ensures Decided(s, was, entropy).wallet == s.wallet
    ensures Decided(s, was, entropy).pc ==
      if was.Idle? then Planned(NextAction.RedeemCounterpartyLeg(deal.secret.value))
      else Ready(RedeemTx(cid, deal.secret.value))
  {}

  /** The wallet as a look leaves it, before it decides. */
  ghost function LookedAt(s: Sys, h: Happening): Wallet {
    if h.Observe? && s.wallet.ctx.hashlock.Some? then RefreshedSys(s, h).wallet else s.wallet
  }

  /** If both looks allow the lock, it is sent. */
  lemma LockIsReady(s: Sys, t: Turn, deal: SwapContext)
    requires Honest(s, deal) && s.pc.Idle? && ReadsAll(s, t) && deal.myAmount > 0
    requires MayLock(LookedAt(s, t.first), deal) && MayLock(LookedAt(Paused(s, t), t.second), deal)
    ensures Rechecked(ObservedSys(s, t.first), t).pc == Ready(LockRequest(deal))
    ensures Rechecked(ObservedSys(s, t.first), t).wallet == LookedAt(Paused(s, t), t.second)
  {
    LockIsDecided(RefreshedSys(s, t.first), Idle, t.first.entropy, deal);
    ObserveIsHonest(s, t.first, deal);
    PausedIsHonest(ObservedSys(s, t.first), t.pause, deal);
    LockIsDecided(RefreshedSys(Paused(s, t), t.second), Paused(s, t).pc, t.second.entropy, deal);
  }

  lemma RedeemIsReady(s: Sys, t: Turn, deal: SwapContext, cid: Word)
    requires Honest(s, deal) && s.pc.Idle? && ReadsAll(s, t)
    requires MayRedeem(LookedAt(s, t.first), deal, cid) && MayRedeem(LookedAt(Paused(s, t), t.second), deal, cid)
    ensures Rechecked(ObservedSys(s, t.first), t).pc == Ready(RedeemTx(cid, deal.secret.value))
    ensures Rechecked(ObservedSys(s, t.first), t).wallet == LookedAt(Paused(s, t), t.second)
  {
    RedeemIsDecided(RefreshedSys(s, t.first), Idle, t.first.entropy, deal, cid);
    ObserveIsHonest(s, t.first, deal);
    PausedIsHonest(ObservedSys(s, t.first), t.pause, deal);
    RedeemIsDecided(RefreshedSys(Paused(s, t), t.second), Paused(s, t).pc, t.second.entropy, deal, cid);
  }

  // -------- the four steps --------

  /** A step of one wallet from `s` to `e`, and what it leaves of both chains. */
  ghost predicate Stepped(s: Sys, e: Sys, deal: SwapContext) {
    && Honest(e, deal) && e.pc == Idle && e.cfg == s.cfg && Onward(s, e)
    && e.wallet.minConfirmations == s.wallet.minConfirmations
  }

  /** A mined transaction that takes effect, reported as it is. */
  lemma StepSends(s: Sys, t: Turn, deal: SwapContext)
    requires Honest(s, deal) && GoesThrough(s, t)
    requires Brink(s, t).pc.Ready? && Succeeds(Brink(s, t), true)
    ensures var (b, e) := (Brink(s, t), WholeStep(s, t));
      && e == SentSys(b, true, true) && Stepped(s, e, deal)
      && e.wallet.cpCid == b.wallet.cpCid && e.now == b.now
  {
    var b := Brink(s, t);
    BrinkIsHonest(s, t, deal);
    BrinkOnward(s, t, deal);
    SendIsHonest(b, true, deal);
    LandedOutlives(b, true);
    OnwardTransitive(s, b, Landed(b, true));
    SendKeepsAccount(s, t, deal);
    StepKeepsDepth(s, t, deal);
  }

  lemma StepKeepsDepth(s: Sys, t: Turn, deal: SwapContext)
    requires Honest(s, deal) && Proper(t)
    ensures Brink(s, t).wallet.minConfirmations == s.wallet.minConfirmations
  {
    var s1 := ObservedSys(s, t.first);
    ObserveIsHonest(s, t.first, deal);
    ObserveKeepsDepth(s, t.first);
    PausedIsHonest(s1, t.pause, deal);
    ObserveKeepsDepth(MovedAll(s1, t.pause), t.second);
    RecheckedIsHonest(s1, t, deal);
    PausedIsHonest(Rechecked(s1, t), t.beforeSend, deal);
  }

  lemma ObserveKeepsDepth(s: Sys, h: Happening)
    requires h.Observe?
    ensures ObservedSys(s, h).wallet.minConfirmations == s.wallet.minConfirmations
  {
    InstantsKeepWallet(s, h);
    if !s.pc.Ready? && s.wallet.ctx.hashlock.Some? {
      DecidingKeepsDepth(RefreshedSys(s, h), s.pc, h.entropy);
    }
  }

  lemma DecidingKeepsDepth(s: Sys, was: Pc, entropy: Word)
    ensures Decided(s, was, entropy).wallet.minConfirmations == s.wallet.minConfirmations
  {}

  /** The network takes this wallet's lock. */
  ghost predicate LockAccepted(s: Sys, deal: SwapContext)
    requires deal.hashlock.Some?
  {
    Exec(s.own.world, s.now, CallOf(s.cfg, LockRequest(deal))).Ok?
  }

  lemma LockStep(s: Sys, t: Turn, deal: SwapContext)
    requires Honest(s, deal) && s.pc.Idle? && GoesThrough(s, t) && deal.myAmount > 0
    requires MayLock(LookedAt(s, t.first), deal) && MayLock(LookedAt(Paused(s, t), t.second), deal)
    requires LockAccepted(Brink(s, t), deal)
    ensures var e := WholeStep(s, t);
      && Stepped(s, e, deal) && e.wallet.state == LockedState(deal.role)
      && e.wallet.cpCid == LookedAt(Paused(s, t), t.second).cpCid && e.now == Brink(s, t).now
      && Brink(s, t).pc == Ready(LockRequest(deal))
  {
    LockIsReady(s, t, deal);
    BrinkIsHonest(s, t, deal);
    StepSends(s, t, deal);
    Completes(Brink(s, t).wallet, LockRequest(deal),
              OwnId(Brink(s, t).cfg, Landed(Brink(s, t), true).own.world.site, LockRequest(deal)), deal.role);
  }

  /** Step one: the taker locks. */
  lemma TakerPlansLock(s: Sys, h: Happening, deal: SwapContext)
    requires Honest(s, deal) && s.pc.Idle? && deal.role.Taker? && s.wallet.state.SecretGenerated? && deal.myAmount > 0
    requires FullyAnswered(s, h)
    ensures MayLock(LookedAt(s, h), deal) && ObservedSys(s, h).pc == Planned(deal.Lock(deal.hashlock.value))
    ensures ObservedSys(s, h).wallet == LookedAt(s, h)
  {
    RefreshedIsSound(s, h, deal);
    LockIsDecided(RefreshedSys(s, h), Idle, h.entropy, deal);
  }

  lemma TakerLocks(s: Sys, t: Turn, deal: SwapContext)
    requires Honest(s, deal) && s.pc.Idle? && deal.role.Taker? && s.wallet.state.SecretGenerated? && deal.myAmount > 0
    requires GoesThrough(s, t) && LockAccepted(Brink(s, t), deal)
    ensures var e := WholeStep(s, t);
      && Stepped(s, e, deal) && e.wallet.state.MyLegLocked? && e.now == Brink(s, t).now
      && Brink(s, t).pc == Ready(LockRequest(deal))
  {
    TakerPlansLock(s, t.first, deal);
    ObserveIsHonest(s, t.first, deal);
    PausedIsHonest(ObservedSys(s, t.first), t.pause, deal);
    RefreshedIsSound(Paused(s, t), t.second, deal);
    LockStep(s, t, deal);
  }

  /** What is deep enough at the first look is so at the second. */
  lemma BuriedStays(s: Sys, t: Turn, deal: SwapContext, cid: Word)
    requires Honest(s, deal) && Proper(t) && Buried(s, t.first, cid)
    ensures Buried(Paused(s, t), t.second, cid)
  {
    LookGoesOn(s, t.first);
    ObserveKeepsDepth(s, t.first);
    ObserveIsHonest(s, t.first, deal);
    PausedGoesOn(ObservedSys(s, t.first), t.pause, t.second, deal);
    DeepStays(Instants(s, t.first).1.cp, Instants(Paused(s, t), t.second).1.cp, cid, s.wallet.minConfirmations);
  }

  lemma LookGoesOn(s: Sys, h: Happening)
    requires h.Observe? && SysOk(s)
    ensures s.cp.blocks <= Instants(s, h).1.cp.blocks <= ObservedSys(s, h).cp.blocks
  {
    InstantsOutlive(s, h);
    ObservedChainsAre(s, h);
  }

  lemma PausedGoesOn(s: Sys, ms: seq<Move>, h: Happening, deal: SwapContext)
    requires h.Observe? && Honest(s, deal)
    ensures s.cp.blocks <= Instants(MovedAll(s, ms), h).1.cp.blocks && MovedAll(s, ms).wallet == s.wallet
  {
    MovesOutlived(s, ms);
    LookGoesOn(MovedAll(s, ms), h);
  }

  /** Both looks of a step among clueless parties see the agreed lock safe. */
  lemma BothLooksSeeSafe(s: Sys, t: Turn, deal: SwapContext, cid: Word)
    requires Honest(s, deal) && s.pc.Idle? && ReadsAll(s, t) && Buried(s, t.first, cid)
    requires Hidden(s, deal.hashlock.value) && CluelessTurn(t, deal.hashlock.value)
    requires AgreedFirst(s.cp.world, deal, cid)
    requires TimeLeft(Brink(s, t).now, deal, s.cp.world.swaps[cid].timelock)
    requires ObservedSys(s, t.first).pc.Planned?
    ensures SeesIt(LookedAt(Paused(s, t), t.second), deal, cid)
  {
    PausedStaysHidden(s, t, deal);
    SecondLookTime(s, t, deal);
    AgreedFirstStays(s.cp.world, Paused(s, t).cp.world, s.now, deal, cid);
    BuriedStays(s, t, deal, cid);
    GateOpens(Paused(s, t), t.second, deal, cid);
    RefreshedIsSound(Paused(s, t), t.second, deal);
  }

  ghost predicate SeesIt(w: Wallet, deal: SwapContext, cid: Word) {
    Sound(w, deal) && w.cpCid == Some(cid) && w.ctx.SeesSafeLeg()
  }

  lemma FirstLookSeesSafe(s: Sys, t: Turn, deal: SwapContext, cid: Word)
    requires Honest(s, deal) && ReadsAll(s, t) && Buried(s, t.first, cid)
    requires Hidden(s, deal.hashlock.value) && CluelessTurn(t, deal.hashlock.value)
    requires AgreedFirst(s.cp.world, deal, cid)
    requires TimeLeft(Brink(s, t).now, deal, s.cp.world.swaps[cid].timelock)
    ensures SeesIt(LookedAt(s, t.first), deal, cid) && LookedAt(s, t.first).state == s.wallet.state
  {
    FirstLookTime(s, t, deal);
    GateOpens(s, t.first, deal, cid);
    RefreshedIsSound(s, t.first, deal);
  }

  lemma SecondLookState(s: Sys, t: Turn, deal: SwapContext)
    requires Honest(s, deal) && ReadsAll(s, t)
    ensures LookedAt(Paused(s, t), t.second).state == ObservedSys(s, t.first).wallet.state
  {
    ObserveIsHonest(s, t.first, deal);
    PausedIsHonest(ObservedSys(s, t.first), t.pause, deal);
    RefreshedIsSound(Paused(s, t), t.second, deal);
  }

  /** What the maker's look at the agreed lock leads to. */
  lemma MakerPlansLock(s: Sys, t: Turn, deal: SwapContext, cid: Word)
    requires Honest(s, deal) && s.pc.Idle? && deal.role.Maker? && s.wallet.state.Start? && deal.myAmount > 0
    requires ReadsAll(s, t) && Buried(s, t.first, cid)
    requires Hidden(s, deal.hashlock.value) && CluelessTurn(t, deal.hashlock.value)
    requires AgreedFirst(s.cp.world, deal, cid)
    requires TimeLeft(Brink(s, t).now, deal, s.cp.world.swaps[cid].timelock)
    ensures ObservedSys(s, t.first).pc.Planned? && MayLock(LookedAt(s, t.first), deal)
    ensures MayLock(LookedAt(Paused(s, t), t.second), deal) && LookedAt(Paused(s, t), t.second).cpCid == Some(cid)
  {
    FirstLookSeesSafe(s, t, deal, cid);
    LockIsDecided(RefreshedSys(s, t.first), Idle, t.first.entropy, deal);
    BothLooksSeeSafe(s, t, deal, cid);
    SecondLookState(s, t, deal);
  }

  /** Step two: the maker sees that lock and locks too. */
  lemma MakerLocks(s: Sys, t: Turn, deal: SwapContext, cid: Word)
    requires Honest(s, deal) && s.pc.Idle? && deal.role.Maker? && s.wallet.state.Start? && deal.myAmount > 0
    requires GoesThrough(s, t) && LockAccepted(Brink(s, t), deal) && Buried(s, t.first, cid)
    requires Hidden(s, deal.hashlock.value) && CluelessTurn(t, deal.hashlock.value)
    requires AgreedFirst(s.cp.world, deal, cid)
    requires TimeLeft(Brink(s, t).now, deal, s.cp.world.swaps[cid].timelock)
    ensures var e := WholeStep(s, t);
      && Stepped(s, e, deal) && e.wallet.state.WaitingForSecret? && e.wallet.cpCid == Some(cid)
      && e.now == Brink(s, t).now && Brink(s, t).pc == Ready(LockRequest(deal))
  {
    MakerPlansLock(s, t, deal, cid);
    LockStep(s, t, deal);
  }

  /** A taker that sees the agreed lock in time gets ready to redeem it. */
  lemma TakerIsReady(s: Sys, t: Turn, deal: SwapContext, cid: Word)
    requires Honest(s, deal) && s.pc.Idle? && deal.role.Taker? && s.wallet.state.MyLegLocked?
    requires ReadsAll(s, t) && Buried(s, t.first, cid)
    requires Hidden(s, deal.hashlock.value) && CluelessTurn(t, deal.hashlock.value)
    requires AgreedFirst(s.cp.world, deal, cid)
    requires TimeLeft(Brink(s, t).now, deal, s.cp.world.swaps[cid].timelock)
    ensures ObservedSys(s, t.first).pc.Planned?
    ensures Brink(s, t).pc == Ready(RedeemTx(cid, deal.secret.value)) && Brink(s, t).wallet.cpCid == Some(cid)
    ensures Honest(Brink(s, t), deal) && Hidden(Brink(s, t), deal.hashlock.value)
  {
    FirstLookSeesSafe(s, t, deal, cid);
    RedeemIsDecided(RefreshedSys(s, t.first), Idle, t.first.entropy, deal, cid);
    BothLooksSeeSafe(s, t, deal, cid);
    SecondLookState(s, t, deal);
    RedeemIsReady(s, t, deal, cid);
    BrinkIsHonest(s, t, deal);
    BrinkStaysHidden(s, t, deal);
  }

  /** Step three: the taker redeems, and so shows the secret. */
  lemma TakerRedeems(s: Sys, t: Turn, deal: SwapContext, cid: Word)
    requires Honest(s, deal) && s.pc.Idle? && deal.role.Taker? && s.wallet.state.MyLegLocked?
    requires GoesThrough(s, t) && Buried(s, t.first, cid) && deal.me != s.cp.world.site.htlc
    requires Hidden(s, deal.hashlock.value) && CluelessTurn(t, deal.hashlock.value)
    requires AgreedFirst(s.cp.world, deal, cid)
    requires TimeLeft(Brink(s, t).now, deal, s.cp.world.swaps[cid].timelock)
    ensures var e := WholeStep(s, t);
      && Stepped(s, e, deal) && e.wallet.state.CounterpartyRedeemed? && e.wallet.cpCid == Some(cid)
      && e.now == Brink(s, t).now
  {
    TakerIsReady(s, t, deal, cid);
    ChainsGoOn(s, t, deal);
    HiddenRedeemSucceeds(Brink(s, t), deal);
    StepSends(s, t, deal);
  }

  /** Step four: the maker reads the secret and redeems, unless somebody has redeemed for it. */
  lemma MakerRedeems(s: Sys, t: Turn, deal: SwapContext)
    requires Honest(s, deal) && s.pc.Idle? && deal.role.Maker? && s.wallet.state.WaitingForSecret?
    requires GoesThrough(s, t) && Rereads(s, t) && OwnLegWithdrawn(s) && deal.me != s.cp.world.site.htlc
    requires s.wallet.cpCid.Some? && s.wallet.cpCid.value in s.cp.world.swaps
    requires SendTime(s, t) < s.cp.world.swaps[s.wallet.cpCid.value].timelock
    ensures var e := WholeStep(s, t);
      && e.wallet.cpCid == s.wallet.cpCid && CpLegWithdrawn(e) && CpLegPaid(e, deal)
      && (!CpLegWithdrawn(Brink(s, t)) ==> e.wallet.state.CounterpartyRedeemed?)
  {
    WithdrawnIsHeard(s, t.first, deal);
    MakerCollects(s, t, deal);
    HeardStepRedeems(s, t, deal);
    BrinkIsHonest(s, t, deal);
    MakerLockIsCovered(Brink(s, t), deal);
    ChainsGoOn(s, t, deal);
    RedeemCollectsInTime(Brink(s, t), deal);
    if Succeeds(Brink(s, t), true) {
      StepSends(s, t, deal);
      Completes(Brink(s, t).wallet, Brink(s, t).pc.tx, Brink(s, t).pc.tx.contractId, deal.role);
    }
  }

  lemma WithdrawnIsHeard(s: Sys, h: Happening, deal: SwapContext)
    requires Honest(s, deal) && h.Observe? && s.wallet.state.WaitingForSecret? && deal.role.Maker? && OwnLegWithdrawn(s)
    ensures Hears(s, h, deal.hashlock.value)
  {
    OwnLegIsStored(s, deal);
    WithdrawnIsOpened(s, deal);
    InstantsOutlive(s, h);
    OpenedStays(s.own.world.log, Instants(s, h).2.own.world.log, deal.hashlock.value);
  }

  // -------- the two wallets --------

  /** What one wallet's chains are after the other's step, some time later. */
  ghost function Meanwhile(o: Sys, other: Sys, till: U64): Sys {
    o.(own := other.cp, cp := other.own, now := till)
  }

  ghost predicate Facing(t: Sys, m: Sys) { t.own == m.cp && t.cp == m.own }

  lemma MeanwhileIsHonest(s: Sys, e: Sys, dealS: SwapContext, o: Sys, deal: SwapContext, till: U64)
    requires Honest(o, deal) && Stepped(s, e, dealS) && Facing(s, o) && o.now <= s.now && e.now <= till
    ensures Honest(Meanwhile(o, e, till), deal) && Facing(e, Meanwhile(o, e, till))
  {
    var o0, o1 := o.(now := s.now), Meanwhile(o, e, till);
    assert Moved(o, Tick(s.now)) == o0;
    MoveOutlived(o, Tick(s.now));
    HonestOutlives(o, o0, deal);
    InStepLater(o.wallet.own, o.own.blocks, e.cp.blocks);
    InStepLater(o.wallet.cp, o.cp.blocks, e.own.blocks);
    HonestOutlives(o0, o1, deal);
  }

  /** Contexts derived from one order pair: each expects what the other locks, on one hashlock and gap. */
  ghost predicate Paired(dt: SwapContext, dm: SwapContext) {
    && dt.role.Taker? && dm.role.Maker?
    && dt.hashlock.Some? && dt.hashlock == dm.hashlock
    && dt.myToken == dm.cpToken && dt.myAmount == dm.cpAmount && dt.myRecipient == dm.me
    && dm.myToken == dt.cpToken && dm.myAmount == dt.cpAmount && dm.myRecipient == dt.me
    && dt.minGap == dm.minGap && dt.myAmount > 0 && dm.myAmount > 0
    && dm.myTimelock < dt.myTimelock && dm.myTimelock + dm.minGap <= dt.myTimelock
  }

  /** What one side locks as agreed is what the other side checks for. */
  lemma DealLockFits(r: Swap, sender: Address, dt: SwapContext, dm: SwapContext)
    requires Paired(dt, dm)
    ensures IsDealLock(r, dt, sender) ==> TermsFit(r, dm) && r.timelock == dt.myTimelock
    ensures IsDealLock(r, dm, sender) ==> TermsFit(r, dt) && r.timelock == dm.myTimelock
  {}

  /** Both wallets at their start, facing each other, nobody else with a preimage. */
  ghost predicate DuoStarts(t: Sys, m: Sys, dt: SwapContext, dm: SwapContext) {
    && Starts(t, dt) && Starts(m, dm) && Facing(t, m) && t.now == m.now && Paired(dt, dm)
    && Hidden(t, dt.hashlock.value)
    && dt.me != t.cp.world.site.htlc && dm.me != m.cp.world.site.htlc
  }

  /** The lock a wallet made is the first one under its hashlock. */
  ghost predicate LockedFirst(s: Sys, deal: SwapContext) {
    deal.hashlock.Some? && s.wallet.ownCid.Some? && FirstLock(s.own.world.log, deal.hashlock.value, s.wallet.ownCid.value)
  }

  lemma LockedFirstIsAgreed(s: Sys, deal: SwapContext, dt: SwapContext, dm: SwapContext)
    requires Honest(s, deal) && LockedFirst(s, deal) && s.wallet.state == LockedState(deal.role) && Paired(dt, dm)
    requires deal == dt || deal == dm
    ensures var other := if deal.role.Taker? then dm else dt;
      && AgreedFirst(s.own.world, other, s.wallet.ownCid.value)
      && s.own.world.swaps[s.wallet.ownCid.value].timelock == deal.myTimelock
  {
    OwnLegIsStored(s, deal);
    var r := s.own.world.swaps[s.wallet.ownCid.value];
    DealLockFits(r, r.sender, dt, dm);
  }

  /** Locking shows nobody the secret. */
  lemma LockStaysHidden(s: Sys, t: Turn, deal: SwapContext)
    requires Honest(s, deal) && Hidden(s, deal.hashlock.value) && CluelessTurn(t, deal.hashlock.value)
    requires Brink(s, t).pc == Ready(LockRequest(deal))
    ensures Hidden(WholeStep(s, t), deal.hashlock.value)
  {
    BrinkIsHonest(s, t, deal);
    BrinkStaysHidden(s, t, deal);
    SendStaysHidden(Brink(s, t), t.mined, t.receipt, deal.hashlock.value);
  }

  /** Two rounds as the runner alternates them, with some time before each step: taker, maker, taker, maker. */
  datatype Rounds = Rounds(t0: Sys, t1: Sys, m0: Sys, m1: Sys, t2: Sys, t3: Sys, m2: Sys, m3: Sys)

  ghost function TwoRounds(t: Sys, m: Sys, n: seq<U64>, ts: seq<Turn>): Rounds
    requires |n| == 4 && |ts| == 4 && forall i :: 0 <= i < 4 ==> Proper(ts[i])
  {
    var t0 := t.(now := n[0]);
    var t1 := WholeStep(t0, ts[0]);
    var m0 := Meanwhile(m, t1, n[1]);
    var m1 := WholeStep(m0, ts[1]);
    var t2 := Meanwhile(t1, m1, n[2]);
    var t3 := WholeStep(t2, ts[2]);
    var m2 := Meanwhile(m1, t3, n[3]);
    Rounds(t0, t1, m0, m1, t2, t3, m2, WholeStep(m2, ts[3]))
  }

  /** The taker locks first: among parties without a preimage, and before any other lock under its hashlock. */
  ghost predicate FirstStepPlays(r: Rounds, ts: seq<Turn>, dt: SwapContext, dm: SwapContext)
    requires |ts| == 4 && Paired(dt, dm)
  {
    && GoesThrough(r.t0, ts[0]) && CluelessTurn(ts[0], dt.hashlock.value) && LockAccepted(Brink(r.t0, ts[0]), dt)
    && LockedFirst(r.t1, dt) && r.t1.now <= r.m0.now
  }

  /** So does the maker, the taker's lock deep enough when it looks, and with the gap left on it. */
  ghost predicate SecondStepPlays(r: Rounds, ts: seq<Turn>, dt: SwapContext, dm: SwapContext)
    requires |ts| == 4 && Paired(dt, dm)
  {
    && GoesThrough(r.m0, ts[1]) && CluelessTurn(ts[1], dt.hashlock.value) && LockAccepted(Brink(r.m0, ts[1]), dm)
    && TimeLeft(Brink(r.m0, ts[1]).now, dm, dt.myTimelock)
    && r.t1.wallet.ownCid.Some? && Buried(r.m0, ts[1].first, r.t1.wallet.ownCid.value)
    && LockedFirst(r.m1, dm) && r.m1.now <= r.t2.now
  }

  /**
   * The taker looks when the maker's lock is deep enough; its redeem is mined with
   * the gap left on that lock, and strictly before its timelock, which a gap of zero
   * would not say.
   */
  ghost predicate ThirdStepPlays(r: Rounds, ts: seq<Turn>, dt: SwapContext, dm: SwapContext)
    requires |ts| == 4 && Paired(dt, dm)
  {
    && GoesThrough(r.t2, ts[2]) && CluelessTurn(ts[2], dt.hashlock.value)
    && TimeLeft(Brink(r.t2, ts[2]).now, dt, dm.myTimelock) && r.t3.now <= r.m2.now
    && r.m1.wallet.ownCid.Some? && Buried(r.t2, ts[2].first, r.m1.wallet.ownCid.value)
  }

  /** The maker's redeem is mined before the taker's timelock; both its looks read one secret. */
  ghost predicate FourthStepPlays(r: Rounds, ts: seq<Turn>, dt: SwapContext, dm: SwapContext)
    requires |ts| == 4 && Paired(dt, dm)
  {
    GoesThrough(r.m2, ts[3]) && Rereads(r.m2, ts[3]) && SendTime(r.m2, ts[3]) < dt.myTimelock
  }

  /** Where the first round leads. */
  ghost predicate BothLocked(t: Sys, m: Sys, dt: SwapContext, dm: SwapContext)
    requires Paired(dt, dm)
  {
    && Honest(t, dt) && Honest(m, dm) && t.pc.Idle? && m.pc.Idle?
    && t.wallet.state.MyLegLocked? && m.wallet.state.WaitingForSecret?
    && t.wallet.ownCid.Some? && m.wallet.cpCid == t.wallet.ownCid
    && Hidden(t, dt.hashlock.value) && Hidden(m, dt.hashlock.value)
    && LockedFirst(t, dt) && LockedFirst(m, dm)
  }

  lemma FirstStep(r: Rounds, m: Sys, n: seq<U64>, ts: seq<Turn>, dt: SwapContext, dm: SwapContext)
    requires |ts| == 4 && Proper(ts[0]) && Paired(dt, dm) && Honest(r.t0, dt) && Honest(m, dm) && Facing(r.t0, m) && m.now <= r.t0.now
    requires r.t0.pc.Idle? && r.t0.wallet.state.SecretGenerated? && Hidden(r.t0, dt.hashlock.value)
    requires m.shown == {} && FirstStepPlays(r, ts, dt, dm)
    requires r.t1 == WholeStep(r.t0, ts[0]) && r.m0 == Meanwhile(m, r.t1, r.m0.now)
    ensures Stepped(r.t0, r.t1, dt) && r.t1.wallet.state.MyLegLocked? && Hidden(r.t1, dt.hashlock.value)
    ensures Honest(r.m0, dm) && Hidden(r.m0, dt.hashlock.value) && AgreedFirst(r.m0.cp.world, dm, r.t1.wallet.ownCid.value)
    ensures r.m0.cp.world.swaps[r.t1.wallet.ownCid.value].timelock == dt.myTimelock
  {
    TakerLocks(r.t0, ts[0], dt);
    LockStaysHidden(r.t0, ts[0], dt);
    MeanwhileIsHonest(r.t0, r.t1, dt, m, dm, r.m0.now);
    LockedFirstIsAgreed(r.t1, dt, dt, dm);
  }

  lemma SecondStep(r: Rounds, ts: seq<Turn>, dt: SwapContext, dm: SwapContext)
    requires |ts| == 4 && Proper(ts[1]) && Paired(dt, dm) && SecondStepPlays(r, ts, dt, dm)
    requires Honest(r.t1, dt) && r.t1.pc.Idle? && r.t1.wallet.state.MyLegLocked? && Hidden(r.t1, dt.hashlock.value)
    requires Buried(r.m0, ts[1].first, r.t1.wallet.ownCid.value)
    requires Honest(r.m0, dm) && r.m0.pc.Idle? && r.m0.wallet.state.Start? && Hidden(r.m0, dt.hashlock.value)
    requires r.m0.cp == r.t1.own && AgreedFirst(r.m0.cp.world, dm, r.t1.wallet.ownCid.value)
    requires TimeLeft(Brink(r.m0, ts[1]).now, dm, r.m0.cp.world.swaps[r.t1.wallet.ownCid.value].timelock)
    requires r.m1 == WholeStep(r.m0, ts[1])
    ensures Stepped(r.m0, r.m1, dm) && r.m1.wallet.state.WaitingForSecret? && Hidden(r.m1, dt.hashlock.value)
    ensures r.m1.wallet.cpCid == r.t1.wallet.ownCid && r.m1.now == Brink(r.m0, ts[1]).now
  {
    MakerLocks(r.m0, ts[1], dm, r.t1.wallet.ownCid.value);
    LockStaysHidden(r.m0, ts[1], dm);
  }

  lemma ThirdStep(r: Rounds, ts: seq<Turn>, dt: SwapContext, dm: SwapContext)
    requires |ts| == 4 && Proper(ts[2]) && Paired(dt, dm) && ThirdStepPlays(r, ts, dt, dm)
    requires Honest(r.t2, dt) && r.t2.pc.Idle? && r.t2.wallet.state.MyLegLocked? && Hidden(r.t2, dt.hashlock.value)
    requires dt.me != r.t2.cp.world.site.htlc
    requires Honest(r.m1, dm) && LockedFirst(r.m1, dm) && r.m1.wallet.state.WaitingForSecret? && r.t2.cp == r.m1.own
    requires r.t3 == WholeStep(r.t2, ts[2])
    ensures Stepped(r.t2, r.t3, dt) && r.t3.wallet.state.CounterpartyRedeemed?
    ensures r.t3.wallet.cpCid == r.m1.wallet.ownCid && CpLegWithdrawn(r.t3) && CpLegPaid(r.t3, dt)
  {
    LockedFirstIsAgreed(r.m1, dm, dt, dm);
    TakerRedeems(r.t2, ts[2], dt, r.m1.wallet.ownCid.value);
    DoneIsCollected(r.t3, dt);
    WithdrawnIsPaid(r.t3, dt);
  }

  lemma FourthStep(r: Rounds, ts: seq<Turn>, dt: SwapContext, dm: SwapContext)
    requires |ts| == 4 && Proper(ts[3]) && Paired(dt, dm) && FourthStepPlays(r, ts, dt, dm)
    requires Honest(r.m2, dm) && r.m2.pc.Idle? && r.m2.wallet.state.WaitingForSecret?
    requires r.m2.own == r.t3.cp && r.m2.wallet.ownCid == r.t3.wallet.cpCid && CpLegWithdrawn(r.t3)
    requires r.m2.wallet.cpCid.Some? && r.m2.wallet.cpCid.value in r.m2.cp.world.swaps
    requires r.m2.cp.world.swaps[r.m2.wallet.cpCid.value].timelock == dt.myTimelock
    requires dm.me != r.m2.cp.world.site.htlc && r.m3 == WholeStep(r.m2, ts[3])
    ensures CpLegWithdrawn(r.m3) && CpLegPaid(r.m3, dm) && r.m3.wallet.cpCid == r.m2.wallet.cpCid
    ensures !CpLegWithdrawn(Brink(r.m2, ts[3])) ==> r.m3.wallet.state.CounterpartyRedeemed?
  {
    MakerRedeems(r.m2, ts[3], dm);
  }

  /** Time passing changes nothing else. */
  lemma Waiting(s: Sys, till: U64, deal: SwapContext)
    requires Honest(s, deal) && s.now <= till
    ensures Honest(s.(now := till), deal)
  {
    assert Moved(s, Tick(till)) == s.(now := till);
    MoveOutlived(s, Tick(till));
    HonestOutlives(s, Moved(s, Tick(till)), deal);
  }

  /** After the taker's first step, seen from the maker. */
  ghost predicate TakerLocked(r: Rounds, dt: SwapContext, dm: SwapContext)
    requires Paired(dt, dm)
  {
    && Stepped(r.t0, r.t1, dt) && r.t1.wallet.state.MyLegLocked? && r.t1.wallet.ownCid.Some?
    && Hidden(r.t1, dt.hashlock.value)
    && Honest(r.m0, dm) && Hidden(r.m0, dt.hashlock.value) && Facing(r.t1, r.m0) && r.t1.now <= r.m0.now
    && AgreedFirst(r.m0.cp.world, dm, r.t1.wallet.ownCid.value)
    && r.m0.cp.world.swaps[r.t1.wallet.ownCid.value].timelock == dt.myTimelock
  }

  lemma RoundOneTaker(t: Sys, m: Sys, dt: SwapContext, dm: SwapContext, n: seq<U64>, ts: seq<Turn>)
    requires DuoStarts(t, m, dt, dm) && |n| == 4 && |ts| == 4 && t.now <= n[0]
    requires forall i :: 0 <= i < 4 ==> Proper(ts[i])
    requires FirstStepPlays(TwoRounds(t, m, n, ts), ts, dt, dm)
    ensures var r := TwoRounds(t, m, n, ts);
      && TakerLocked(r, dt, dm) && LockedFirst(r.t1, dt)
      && r.m0.pc.Idle? && r.m0.wallet.state.Start?
      && r.t0.cp.world.site == t.cp.world.site && r.t0.own.world.site == t.own.world.site
  {
    StartIsHonest(t, dt);
    StartIsHonest(m, dm);
    Waiting(t, n[0], dt);
    FirstStep(TwoRounds(t, m, n, ts), m, n, ts, dt, dm);
  }

  lemma RoundOneMaker(r: Rounds, ts: seq<Turn>, dt: SwapContext, dm: SwapContext)
    requires |ts| == 4 && Proper(ts[1]) && Paired(dt, dm) && TakerLocked(r, dt, dm) && LockedFirst(r.t1, dt) && SecondStepPlays(r, ts, dt, dm)
    requires r.m0.pc.Idle? && r.m0.wallet.state.Start?
    requires r.m1 == WholeStep(r.m0, ts[1])
    ensures Stepped(r.m0, r.m1, dm) && BothLocked(r.t1, r.m1, dt, dm)
    ensures AgreedFirst(r.m1.cp.world, dm, r.t1.wallet.ownCid.value)
    ensures r.m1.cp.world.swaps[r.t1.wallet.ownCid.value].timelock == dt.myTimelock
  {
    SecondStep(r, ts, dt, dm);
    AgreedFirstStays(r.m0.cp.world, r.m1.cp.world, r.m0.now, dm, r.t1.wallet.ownCid.value);
  }

  lemma RoundTwoTaker(r: Rounds, ts: seq<Turn>, dt: SwapContext, dm: SwapContext)
    requires |ts| == 4 && Proper(ts[2]) && Paired(dt, dm) && BothLocked(r.t1, r.m1, dt, dm) && Stepped(r.m0, r.m1, dm)
    requires Facing(r.m0, r.t1) && r.t1.now <= r.m0.now && r.m1.now <= r.t2.now
    requires r.t2 == Meanwhile(r.t1, r.m1, r.t2.now) && r.t3 == WholeStep(r.t2, ts[2])
    requires ThirdStepPlays(r, ts, dt, dm) && dt.me != r.m1.own.world.site.htlc
    ensures Facing(r.m1, r.t2) && Stepped(r.t2, r.t3, dt) && r.t3.wallet.state.CounterpartyRedeemed?
    ensures r.t3.wallet.cpCid == r.m1.wallet.ownCid && CpLegWithdrawn(r.t3) && CpLegPaid(r.t3, dt)
  {
    MeanwhileIsHonest(r.m0, r.m1, dm, r.t1, dt, r.t2.now);
    ThirdStep(r, ts, dt, dm);
  }

  lemma RoundTwoMaker(r: Rounds, ts: seq<Turn>, dt: SwapContext, dm: SwapContext)
    requires |ts| == 4 && Proper(ts[3]) && Paired(dt, dm) && BothLocked(r.t1, r.m1, dt, dm)
    requires Facing(r.t2, r.m1) && Stepped(r.t2, r.t3, dt) && r.m1.now <= r.t2.now && r.t3.now <= r.m2.now
    requires r.t3.wallet.cpCid == r.m1.wallet.ownCid && CpLegWithdrawn(r.t3)
    requires AgreedFirst(r.m1.cp.world, dm, r.t1.wallet.ownCid.value)
    requires r.m1.cp.world.swaps[r.t1.wallet.ownCid.value].timelock == dt.myTimelock
    requires r.m2 == Meanwhile(r.m1, r.t3, r.m2.now) && r.m3 == WholeStep(r.m2, ts[3])
    requires FourthStepPlays(r, ts, dt, dm) && dm.me != r.t3.own.world.site.htlc
    ensures CpLegWithdrawn(r.m3) && CpLegPaid(r.m3, dm) && r.m3.wallet.cpCid == r.t1.wallet.ownCid
    ensures !CpLegWithdrawn(Brink(r.m2, ts[3])) ==> r.m3.wallet.state.CounterpartyRedeemed?
  {
    MeanwhileIsHonest(r.t2, r.t3, dt, r.m1, dm, r.m2.now);
    AgreedFirstStays(r.t2.own.world, r.t3.own.world, r.t2.now, dm, r.t1.wallet.ownCid.value);
    FourthStep(r, ts, dt, dm);
  }

  /**
   * Honest completion. Two wallets with paired contexts take two rounds, taker
   * first. Nobody else has a preimage until the taker shows it; nobody has put
   * another lock under the hashlock before theirs; reads are answered, the other
   * side's lock is by then as deep as each wallet asks for, transactions are mined
   * and reported, in time for the maker's lock. Apart from that everybody
   * may do anything at any moment. Then each leg ends up withdrawn and paid to the
   * other side, and both wallets know, unless somebody redeemed for the maker.
   */
  lemma HonestSwapCompletes(t: Sys, m: Sys, dt: SwapContext, dm: SwapContext, n: seq<U64>, ts: seq<Turn>)
    requires DuoStarts(t, m, dt, dm) && |n| == 4 && |ts| == 4 && t.now <= n[0]
    requires forall i :: 0 <= i < 4 ==> Proper(ts[i])
    requires var r := TwoRounds(t, m, n, ts);
      && FirstStepPlays(r, ts, dt, dm) && SecondStepPlays(r, ts, dt, dm)
      && ThirdStepPlays(r, ts, dt, dm) && FourthStepPlays(r, ts, dt, dm)
    ensures var r := TwoRounds(t, m, n, ts);
      && r.t3.wallet.state.CounterpartyRedeemed? && CpLegWithdrawn(r.t3) && CpLegPaid(r.t3, dt)
      && CpLegWithdrawn(r.m3) && CpLegPaid(r.m3, dm)
      && r.t3.wallet.cpCid == r.m1.wallet.ownCid && r.m3.wallet.cpCid == r.t1.wallet.ownCid
      && (!CpLegWithdrawn(Brink(r.m2, ts[3])) ==> r.m3.wallet.state.CounterpartyRedeemed?)
  {
    var r := TwoRounds(t, m, n, ts);
    RoundOneTaker(t, m, dt, dm, n, ts);
    RoundOneMaker(r, ts, dt, dm);
    RoundTwoTaker(r, ts, dt, dm);
    RoundTwoMaker(r, ts, dt, dm);
  }

  // -------- why the agreed lock has to come first --------

  /**
   * Only the first lock under the hashlock is ever redeemed: a wallet that is
   * about to redeem names exactly that lock, and it is a good one. A stray lock
   * put there first is therefore enough to keep the taker from redeeming.
   */
  lemma OnlyFirstLockIsRedeemed(s: Sys, deal: SwapContext)
    requires Honest(s, deal) && s.pc.Ready? && s.pc.tx.RedeemTx?
    ensures FirstLock(s.cp.world.log, deal.hashlock.value, s.pc.tx.contractId)
    ensures CpLegGood(s, deal) && s.wallet.cpCid == Some(s.pc.tx.contractId)
  {
    if deal.role.Maker? {
      MakerLockIsCovered(s, deal);
    } else {
      ReadyLegIsGood(s, deal);
    }
    DiscoveredIsFirst(s, deal.hashlock.value);
  }

  lemma DiscoveredIsFirst(s: Sys, hash: Word)
    requires WalletOk(s, hash) && s.wallet.cpCid.Some?
    ensures FirstLock(s.cp.world.log, hash, s.wallet.cpCid.value)
  {
    var o, blocks := s.wallet.cp, s.cp.blocks;
    var seen := Flatten(blocks[..o.nextBlock]);
    DiscoversTheFirst(o, seen, hash, s.wallet.cpCid.value);
    assert blocks == blocks[..o.nextBlock] + blocks[o.nextBlock..];
    FlattenAppend(blocks[..o.nextBlock], blocks[o.nextBlock..]);
    FirstLockStays(seen, s.cp.world.log, hash, s.wallet.cpCid.value);
  }

  /** If the first lock under the hashlock is not the one expected, the taker never comes to redeem, in any run. */
  lemma StrayLockPreventsRedeem(s: Sys, hs: seq<Happening>, deal: SwapContext, stray: Word)
    requires Starts(s, deal) && TruthfulRun(s, hs) && deal.role.Taker?
    requires var e := Run(s, hs);
      && FirstLock(e.cp.world.log, deal.hashlock.value, stray) && stray in e.cp.world.swaps
      && !TermsNearly(e.cp.world.swaps[stray], deal)
    ensures !(Run(s, hs).pc.Ready? && Run(s, hs).pc.tx.RedeemTx?)
  {
    var e := Run(s, hs);
    RunIsHonest(s, hs, deal);
    if e.pc.Ready? && e.pc.tx.RedeemTx? {
      OnlyFirstLockIsRedeemed(e, deal);
      OneFirstLock(e.cp.world.log, deal.hashlock.value, stray, e.pc.tx.contractId);
    }
  }

  /** Token, amount and recipient as this wallet expects them. */
  predicate TermsNearly(r: Swap, deal: SwapContext) {
    r.token == deal.cpToken && r.amount == deal.cpAmount && r.recipient == deal.me
  }

  lemma OneFirstLock(log: seq<Event>, hash: Word, a: Word, b: Word)
    requires FirstLock(log, hash, a) && FirstLock(log, hash, b)
    ensures a == b
  {
    var i :| FirstFiledAt(log, hash, i) && log[i].contractId == a;
    var j :| FirstFiledAt(log, hash, j) && log[j].contractId == b;
    assert i == j;
  }
}
