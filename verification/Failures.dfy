/**
 * Runs that go wrong, each reached from freshly deployed contracts: a redeem
 * that comes too late, a redeem that is lost, and a maker left with a leg it
 * never refunds.
 */
module Failures {
  import opened Primitives
  import opened Encoding
  import opened Ledger
  import opened LedgerInvariants
  import opened LedgerTheorems
  import opened Observer
  import opened StateMachine
  import opened Executor
  import opened TxOutcomes
  import opened SwapSystem
  import opened WalletRuns
  import opened WalletTheorems
  import opened MakerSafety
  import opened TakerSafety
  import opened Completion
  import opened QuietSteps
  import opened Deployment
  import opened Receipts

  // -------- single moves --------

  lemma MovedIsHonest(s: Sys, m: Move, deal: SwapContext)
    requires Honest(s, deal)
    ensures Honest(Moved(s, m), deal)
  {
    MoveOutlived(s, m);
    HonestOutlives(s, Moved(s, m), deal);
  }

  /** Everybody but the wallet's own steps is told nothing, so an outside move is always truthful. */
  lemma LeadsOutside(s: Sys, hs: seq<Happening>, e: Sys, m: Move, hash: Word)
    requires Leads(s, hs, e, hash) && (Hidden(e, hash) ==> Clueless(m, hash))
    ensures Leads(s, hs + [Outside(m)], Moved(e, m), hash)
  {
    LeadsOn(s, hs, e, Outside(m), hash);
  }

  function RefundCall(site: Site, cid: Word, sender: Address): Call {
    if sender == site.settlement then Call.RefundLeg(cid, TAKES) else Call.Refund(sender, cid, TAKES)
  }

  lemma RefundCallIsClueless(site: Site, cid: Word, sender: Address, hash: Word)
    ensures TreeUsesKnown(RefundCall(site, cid, sender), hash, {})
  {}

  lemma RefundCallWorks(n: Node, now: U64, cid: Word)
    requires Serves(n) && cid in n.world.swaps && n.world.swaps[cid].Active() && n.world.swaps[cid].timelock <= now
    ensures var w1 := Mine(n, now, RefundCall(n.world.site, cid, n.world.swaps[cid].sender)).world;
      cid in w1.swaps && w1.swaps[cid].refunded
  {
    var w, sender := n.world, n.world.swaps[cid].sender;
    assert SaneSwap(w, cid, w.swaps[cid]);
    if sender == w.site.settlement {
      RefundLegSucceeds(w, now, cid);
    } else {
      RefundSucceeds(w, now, sender, cid);
    }
  }

  ghost predicate CpLegLost(s: Sys, cid: Word) {
    cid in s.cp.world.swaps && s.cp.world.swaps[cid].refunded && !s.cp.world.swaps[cid].withdrawn
  }

  /** The other side takes its expired lock back. */
  function CpRefund(s: Sys, cid: Word): Move
    requires cid in s.cp.world.swaps
  {
    MineCp(RefundCall(s.cp.world.site, cid, s.cp.world.swaps[cid].sender))
  }

  lemma CpRefundMined(s: Sys, cid: Word)
    requires SysOk(s) && cid in s.cp.world.swaps && s.cp.world.swaps[cid].Active()
    requires s.cp.world.swaps[cid].timelock <= s.now
    ensures CpLegLost(Moved(s, CpRefund(s, cid)), cid)
  {
    MoveOutlived(s, CpRefund(s, cid));
    RefundCallWorks(s.cp, s.now, cid);
    OneFlag(Moved(s, CpRefund(s, cid)).cp.world, cid);
  }

  /** Anybody redeems a lock with the shown secret. */
  lemma OwnLegTaken(s: Sys, cid: Word, secret: Word)
    requires SysOk(s) && s.wallet.ownCid == Some(cid) && cid in s.own.world.swaps
    requires var l := s.own.world.swaps[cid];
      l.Active() && SHA256(secret) == l.hashlock && s.now < l.timelock && l.recipient != s.own.world.site.htlc
    ensures var s1 := Moved(s, MineOwn(Call.Redeem(cid, secret, TAKES)));
      OwnLegWithdrawn(s1) && s1.cp == s.cp && s1.wallet == s.wallet && s1.shown == s.shown && s1.now == s.now
  {
    RedeemSucceeds(s.own.world, s.now, cid, secret);
  }

  // -------- the brink --------

  /** Both legs are open and the taker is about to redeem. */
  ghost predicate OnTheBrink(s: Sys, deal: SwapContext) {
    && Honest(s, deal) && deal.role.Taker? && s.pc.Ready? && s.pc.tx.RedeemTx?
    && s.pc.tx.contractId in s.cp.world.swaps && s.cp.world.swaps[s.pc.tx.contractId].Active()
    && s.wallet.ownCid.Some? && s.wallet.ownCid.value in s.own.world.swaps
    && s.own.world.swaps[s.wallet.ownCid.value].Active()
    && s.own.world.site.htlc != deal.myRecipient
  }

  lemma BrinkOwnLeg(s: Sys, deal: SwapContext)
    requires OnTheBrink(s, deal)
    ensures var l := s.own.world.swaps[s.wallet.ownCid.value];
      && l.recipient != s.own.world.site.htlc && l.timelock == deal.myTimelock
      && SHA256(s.pc.tx.secret) == l.hashlock == deal.hashlock.value
      && s.wallet.state.MyLegLocked?
  {
    OwnLegIsStored(s, deal);
  }

  /** The redeem does not take effect, and shows the secret all the same. */
  lemma FailedRedeem(s: Sys, mined: bool, deal: SwapContext)
    requires Honest(s, deal) && s.pc.Ready? && s.pc.tx.RedeemTx? && !Succeeds(s, mined)
    ensures var s1 := SentSys(s, mined, false);
      && Honest(s1, deal) && s1.pc == Idle && s1.shown != {}
      && s1.own == s.own && s1.wallet == s.wallet && s1.now == s.now && s1.cfg == s.cfg
      && (!mined ==> s1.cp == s.cp)
  {
    SendIsHonest(s, mined, deal);
    assert s.pc.tx.secret in SentSys(s, mined, false).shown;
  }

  /** Once the secret is shown, nothing anybody does is a guess. */
  lemma LeadsShown(s: Sys, hs: seq<Happening>, e: Sys, m: Move, hash: Word)
    requires Leads(s, hs, e, hash) && e.shown != {}
    ensures Leads(s, hs + [Outside(m)], Moved(e, m), hash) && Moved(e, m).shown != {}
  {
    LeadsOutside(s, hs, e, m, hash);
  }

  // -------- a redeem that comes too late --------

  /** The other side's lock expires and is taken back. */
  lemma TakenBack(s: Sys, till: U64, cid: Word, deal: SwapContext)
    requires Honest(s, deal) && s.now <= till
    requires cid in s.cp.world.swaps && s.cp.world.swaps[cid].Active() && s.cp.world.swaps[cid].timelock <= till
    ensures var (s1, e) := (Moved(s, Tick(till)), Moved(Moved(s, Tick(till)), CpRefund(s, cid)));
      && Honest(s1, deal) && Honest(e, deal) && CpLegLost(e, cid)
      && e.own == s.own && SameWallet(s, e) && e.now == till
  {
    var s1 := Moved(s, Tick(till));
    MovedIsHonest(s, Tick(till), deal);
    MovedIsHonest(s1, CpRefund(s, cid), deal);
    CpRefundMined(s1, cid);
    MoveKeepsWallet(s1, CpRefund(s, cid));
  }

  lemma TakenBackKeepsTerms(s: Sys, till: U64, cid: Word, deal: SwapContext)
    requires Honest(s, deal) && s.now <= till && cid in s.cp.world.swaps
    ensures var e := Moved(Moved(s, Tick(till)), CpRefund(s, cid));
      cid in e.cp.world.swaps && e.cp.world.swaps[cid].timelock == s.cp.world.swaps[cid].timelock
  {
    var s1 := Moved(s, Tick(till));
    MovedIsHonest(s, Tick(till), deal);
    MoveOutlived(s1, CpRefund(s, cid));
    assert SwapGrew(s1.cp.world.swaps[cid], Moved(s1, CpRefund(s, cid)).cp.world.swaps[cid], s1.now);
  }

  lemma LateRedeemFails(s: Sys, mined: bool, deal: SwapContext)
    requires Honest(s, deal) && s.pc.Ready? && s.pc.tx.RedeemTx? && CpLegLost(s, s.pc.tx.contractId)
    ensures !Succeeds(s, mined) && CpLegLost(SentSys(s, mined, false), s.pc.tx.contractId)
  {
    var cid := s.pc.tx.contractId;
    if Succeeds(s, mined) {
      RedeemMeans(s.cp.world, s.now, cid, s.pc.tx.secret, TAKES);
    }
    LandedOutlives(s, mined);
    assert SwapGrew(s.cp.world.swaps[cid], Landed(s, mined).cp.world.swaps[cid], s.now);
    OneFlag(Landed(s, mined).cp.world, cid);
  }

  /**
   * Why a redeem must be timely. From every state in which the taker is about to
   * redeem: if its redeem only goes out once the maker's leg has expired, while
   * its own has not, the taker can lose its leg and get nothing, though it is told
   * the truth and nobody guesses the secret.
   */
  lemma LateRedeemLoses(s0: Sys, hs: seq<Happening>, s: Sys, till: U64, mined: bool, deal: SwapContext)
    returns (late: seq<Happening>, e: Sys)
    requires OnTheBrink(s, deal) && Leads(s0, hs, s, deal.hashlock.value)
    requires s.now <= till && s.cp.world.swaps[s.pc.tx.contractId].timelock <= till < deal.myTimelock
    ensures hs <= late && Leads(s0, late, e, deal.hashlock.value)
    ensures OwnLegWithdrawn(e) && CpLegLost(e, s.pc.tx.contractId) && e.wallet.cpCid == Some(s.pc.tx.contractId)
  {
    var hash, cid, own, secret := deal.hashlock.value, s.pc.tx.contractId, s.wallet.ownCid.value, s.pc.tx.secret;
    BrinkOwnLeg(s, deal);
    TakenBack(s, till, cid, deal);
    RefundCallIsClueless(s.cp.world.site, cid, s.cp.world.swaps[cid].sender, hash);
    LeadsOutside(s0, hs, s, Tick(till), hash);
    var s1 := Moved(s, Tick(till));
    LeadsOutside(s0, hs + [Outside(Tick(till))], s1, CpRefund(s, cid), hash);
    var s2 := Moved(s1, CpRefund(s, cid));
    LateRedeemFails(s2, mined, deal);
    FailedRedeem(s2, mined, deal);
    LeadsOn(s0, hs + [Outside(Tick(till))] + [Outside(CpRefund(s, cid))], s2, Happening.Send(mined, false), hash);
    var s3 := SentSys(s2, mined, false);
    var take := MineOwn(Call.Redeem(own, secret, TAKES));
    LeadsShown(s0, hs + [Outside(Tick(till))] + [Outside(CpRefund(s, cid))] + [Happening.Send(mined, false)], s3, take, hash);
    OwnLegTaken(s3, own, secret);
    late := hs + [Outside(Tick(till))] + [Outside(CpRefund(s, cid))] + [Happening.Send(mined, false)] + [Outside(take)];
    e := Moved(s3, take);
  }

  // -------- a redeem that is lost --------

  /** Somebody mines the redeem the wallet showed but never got through. */
  lemma CopiedRedeem(s: Sys, cid: Word, secret: Word, deal: SwapContext)
    requires Honest(s, deal)
    ensures var s1 := Moved(s, MineCp(Call.Redeem(cid, secret, TAKES)));
      Honest(s1, deal) && s1.own == s.own && s1.wallet == s.wallet && s1.shown == s.shown && s1.now == s.now && s1.pc == s.pc
  {
    MovedIsHonest(s, MineCp(Call.Redeem(cid, secret, TAKES)), deal);
  }

  lemma ExpiredTakerRefunds(s: Sys, deal: SwapContext)
    requires Honest(s, deal) && deal.role.Taker? && s.wallet.state.MyLegLocked? && s.pc.Idle? && deal.myTimelock <= s.now
    ensures var e := ObservedSys(s, QuietLook());
      && s.wallet.ownCid.Some? && e.pc == Ready(RefundTx(s.wallet.ownCid.value)) && e.own == s.own
      && e.wallet.ownCid == s.wallet.ownCid
  {
    QuietRefresh(s);
    ExpiredLegIsActedOn(s, QuietLook(), deal);
    QuietKeepsChains(s);
    QuietObserved(s);
    RefundDecisionKeepsOwn(Looked(s), s.pc);
  }

  lemma RefundDecisionKeepsOwn(s: Sys, was: Pc)
    ensures Decided(s, was, 0).wallet.ownCid == s.wallet.ownCid
  {}

  /** Both legs paid behind the wallet's back. */
  lemma BothTaken(s0: Sys, hs: seq<Happening>, s: Sys, cid: Word, own: Word, secret: Word, deal: SwapContext)
    returns (taken: seq<Happening>, e: Sys)
    requires Honest(s, deal) && s.shown != {} && deal.hashlock.Some? && Leads(s0, hs, s, deal.hashlock.value)
    requires s.wallet.ownCid == Some(own) && own in s.own.world.swaps
    requires var l := s.own.world.swaps[own];
      l.Active() && SHA256(secret) == l.hashlock && s.now < l.timelock && l.recipient != s.own.world.site.htlc
    ensures hs <= taken && Leads(s0, taken, e, deal.hashlock.value)
    ensures Honest(e, deal) && OwnLegWithdrawn(e) && e.wallet == s.wallet && e.pc == s.pc && e.shown != {}
  {
    var hash := deal.hashlock.value;
    var copy, take := MineCp(Call.Redeem(cid, secret, TAKES)), MineOwn(Call.Redeem(own, secret, TAKES));
    CopiedRedeem(s, cid, secret, deal);
    LeadsShown(s0, hs, s, copy, hash);
    var s1 := Moved(s, copy);
    OwnLegTaken(s1, own, secret);
    LeadsShown(s0, hs + [Outside(copy)], s1, take, hash);
    MovedIsHonest(s1, take, deal);
    MoveKeepsWallet(s1, take);
    taken := hs + [Outside(copy)] + [Outside(take)];
    e := Moved(s1, take);
  }

  /** The wallet looks again once its timelock is over. */
  lemma LooksAfterExpiry(s0: Sys, hs: seq<Happening>, s: Sys, deal: SwapContext)
    returns (looked: seq<Happening>, e: Sys)
    requires Honest(s, deal) && s.shown != {} && Leads(s0, hs, s, deal.hashlock.value)
    requires deal.role.Taker? && s.wallet.state.MyLegLocked? && s.pc.Idle? && OwnLegWithdrawn(s)
    ensures hs <= looked && Leads(s0, looked, e, deal.hashlock.value)
    ensures OwnLegWithdrawn(e) && e.pc.Ready? && e.pc.tx.RefundTx? && Some(e.pc.tx.contractId) == e.wallet.ownCid
  {
    var tick := Tick(deal.myTimelock);
    LeadsShown(s0, hs, s, tick, deal.hashlock.value);
    MovedIsHonest(s, tick, deal);
    var s1 := Moved(s, tick);
    ExpiredTakerRefunds(s1, deal);
    QuietLookIsSecretive(s1, deal.hashlock.value);
    LeadsOn(s0, hs + [Outside(tick)], s1, QuietLook(), deal.hashlock.value);
    looked := hs + [Outside(tick)] + [QuietLook()];
    e := ObservedSys(s1, QuietLook());
  }

  /**
   * Why a redeem must be mined. If the taker's redeem is lost, others can mine it
   * for the taker, and the maker then takes the taker's leg: both were paid. But
   * the wallet does not know, and once its timelock is over it goes to refund a
   * leg that was withdrawn long ago.
   */
  lemma LostRedeemMisleads(s0: Sys, hs: seq<Happening>, s: Sys, deal: SwapContext)
    returns (lost: seq<Happening>, e: Sys)
    requires OnTheBrink(s, deal) && Leads(s0, hs, s, deal.hashlock.value) && s.now < deal.myTimelock
    ensures hs <= lost && Leads(s0, lost, e, deal.hashlock.value)
    ensures OwnLegWithdrawn(e) && e.pc.Ready? && e.pc.tx.RefundTx? && Some(e.pc.tx.contractId) == e.wallet.ownCid
  {
    BrinkOwnLeg(s, deal);
    FailedRedeem(s, false, deal);
    LeadsOn(s0, hs, s, Happening.Send(false, false), deal.hashlock.value);
    var taken, s1 := BothTaken(s0, hs + [Happening.Send(false, false)], SentSys(s, false, false),
                               s.pc.tx.contractId, s.wallet.ownCid.value, s.pc.tx.secret, deal);
    lost, e := LooksAfterExpiry(s0, taken, s1, deal);
  }

  // -------- the brink is reached --------

  lemma FundedLockMined(n: Node, now: U64, cfg: Config, deal: SwapContext)
    requires Deployed(n) && deal.hashlock.Some? && Funded(n.world, now, cfg, deal)
    requires deal.hashlock.value != 0 && deal.myAmount > 0 && now < deal.myTimelock
    ensures Exec(n.world, now, CallOf(cfg, LockRequest(deal))).Ok?
  {
    if cfg.path.Direct? {
      FundedDirectLock(n.world, now, cfg, deal);
    } else {
      FundedSettleLock(n.world, now, cfg, deal);
    }
  }

  /** The first lock on a fresh chain, and the only one. */
  ghost predicate SoleLock(w: World, cid: Word, deal: SwapContext, sender: Address)
    requires deal.hashlock.Some?
  {
    && w.swaps.Keys == {cid} && w.swaps[cid].Active() && IsDealLock(w.swaps[cid], deal, sender)
    && w.log == [Creation(cid, w.swaps[cid])]
  }

  lemma LockIsSole(w: World, now: U64, cfg: Config, deal: SwapContext)
    requires WorldInv(w) && w.swaps == map[] && w.log == [] && deal.hashlock.Some?
    requires Exec(w, now, CallOf(cfg, LockRequest(deal))).Ok?
    ensures SoleLock(After(w, now, CallOf(cfg, LockRequest(deal))), OwnId(cfg, w.site, LockRequest(deal)),
                     deal, LockSender(cfg, w.site))
  {
    LockStores(w, now, CallOf(cfg, LockRequest(deal)));
  }

  lemma SoleLockIsFirst(w: World, cid: Word, deal: SwapContext, sender: Address)
    requires deal.hashlock.Some? && SoleLock(w, cid, deal, sender)
    ensures FirstLock(w.log, deal.hashlock.value, cid)
  {
    assert FirstFiledAt(w.log, deal.hashlock.value, 0);
  }

  /** The other side's lock, mined on its fresh chain, is the first there and the one expected. */
  lemma OtherLockIsFirst(n: Node, now: U64, cfg: Config, deal: SwapContext, dt: SwapContext, dm: SwapContext)
    requires Deployed(n) && Paired(dt, dm) && (deal == dt || deal == dm) && Funded(n.world, now, cfg, deal)
    requires deal.hashlock.value != 0 && now < deal.myTimelock
    ensures var (w1, cid) := (Mine(n, now, CallOf(cfg, LockRequest(deal))).world, OwnId(cfg, n.world.site, LockRequest(deal)));
      var other := if deal == dt then dm else dt;
      && AgreedFirst(w1, other, cid) && w1.swaps[cid].timelock == deal.myTimelock
      && w1.site == n.world.site && w1.swaps.Keys == {cid} && w1.swaps[cid].Active()
  {
    var c, cid := CallOf(cfg, LockRequest(deal)), OwnId(cfg, n.world.site, LockRequest(deal));
    GenesisInv(n.world);
    FundedLockMined(n, now, cfg, deal);
    LockIsSole(n.world, now, cfg, deal);
    ExecEvolves(n.world, now, c);
    SoleLockIsFirst(After(n.world, now, c), cid, deal, LockSender(cfg, n.world.site));
    DealLockFits(After(n.world, now, c).swaps[cid], LockSender(cfg, n.world.site), dt, dm);
  }

  /** The other side's lock lands on its chain, which was fresh. */
  lemma OtherSideLocks(s: Sys, cfg: Config, n: Node, deal: SwapContext, other: SwapContext, dt: SwapContext, dm: SwapContext)
    requires Honest(s, deal) && Hidden(s, deal.hashlock.value) && s.cp == n && Deployed(n) && Paired(dt, dm)
    requires (deal == dt && other == dm) || (deal == dm && other == dt)
    requires Funded(n.world, s.now, cfg, other) && other.hashlock.value != 0 && s.now < other.myTimelock
    ensures var lock := MineCp(CallOf(cfg, LockRequest(other)));
      var (e, cid) := (Moved(s, lock), OwnId(cfg, n.world.site, LockRequest(other)));
      && Clueless(lock, deal.hashlock.value)
      && Honest(e, deal) && Hidden(e, deal.hashlock.value) && SameWallet(s, e) && e.own == s.own && e.now == s.now
      && AgreedFirst(e.cp.world, deal, cid) && e.cp.world.swaps[cid].timelock == other.myTimelock
      && e.cp.world.swaps[cid].Active()
  {
    var lock := MineCp(CallOf(cfg, LockRequest(other)));
    OwnCallIsClueless(cfg, LockRequest(other), deal.hashlock.value);
    OtherLockIsFirst(n, s.now, cfg, other, dt, dm);
    MovedIsHonest(s, lock, deal);
    MoveStaysHidden(s, lock, deal.hashlock.value);
    MoveKeepsWallet(s, lock);
  }

  /** The taker locks, and then the maker does. */
  lemma BothLegsLocked(k: Market) returns (hs: seq<Happening>, s: Sys, cid: Word)
    requires k.Ready()
    ensures Leads(k.Taker(), hs, s, k.dt.hashlock.value) && Honest(s, k.dt) && Hidden(s, k.dt.hashlock.value)
    ensures s.pc.Idle? && s.wallet.state.MyLegLocked? && s.now == k.n[1] && s.wallet.minConfirmations <= 1
    ensures AgreedFirst(s.cp.world, k.dt, cid) && s.cp.world.swaps[cid].timelock == k.dm.myTimelock
    ensures s.own.world.site == k.taker.world.site
  {
    hs, s := TakerHasLocked(k);
    hs, s, cid := MakerFollows(k, hs, s);
  }

  /** Some time later the maker's lock lands. */
  lemma MakerFollows(k: Market, before: seq<Happening>, s0: Sys) returns (hs: seq<Happening>, s: Sys, cid: Word)
    requires k.Ready() && Leads(k.Taker(), before, s0, k.dt.hashlock.value)
    requires Honest(s0, k.dt) && Hidden(s0, k.dt.hashlock.value) && s0.cp == k.maker && s0.now <= k.n[1]
    ensures Leads(k.Taker(), hs, s, k.dt.hashlock.value) && Honest(s, k.dt) && Hidden(s, k.dt.hashlock.value)
    ensures SameWallet(s0, s) && s.own == s0.own && s.now == k.n[1]
    ensures AgreedFirst(s.cp.world, k.dt, cid) && s.cp.world.swaps[cid].timelock == k.dm.myTimelock
  {
    hs, s := LeadsLater(k.Taker(), before, s0, k.n[1], k.dt);
    hs, s, cid := LeadsToOtherLock(k.Taker(), hs, s, k.cm, k.maker, k.dt, k.dm, k.dt, k.dm);
  }

  lemma LeadsLater(s0: Sys, before: seq<Happening>, s: Sys, till: U64, deal: SwapContext)
    returns (hs: seq<Happening>, e: Sys)
    requires Honest(s, deal) && Hidden(s, deal.hashlock.value) && s.now <= till
    requires Leads(s0, before, s, deal.hashlock.value)
    ensures Leads(s0, hs, e, deal.hashlock.value) && Honest(e, deal) && Hidden(e, deal.hashlock.value)
    ensures e == s.(now := till)
  {
    LeadsOutside(s0, before, s, Tick(till), deal.hashlock.value);
    MovedIsHonest(s, Tick(till), deal);
    hs, e := before + [Outside(Tick(till))], Moved(s, Tick(till));
  }

  lemma LeadsToOtherLock(
    s0: Sys, before: seq<Happening>, s: Sys, cfg: Config, n: Node, deal: SwapContext, other: SwapContext,
    dt: SwapContext, dm: SwapContext) returns (hs: seq<Happening>, e: Sys, cid: Word)
    requires Honest(s, deal) && Hidden(s, deal.hashlock.value) && s.cp == n && Deployed(n) && Paired(dt, dm)
    requires (deal == dt && other == dm) || (deal == dm && other == dt)
    requires Funded(n.world, s.now, cfg, other) && other.hashlock.value != 0 && s.now < other.myTimelock
    requires Leads(s0, before, s, deal.hashlock.value)
    ensures Leads(s0, hs, e, deal.hashlock.value) && Honest(e, deal) && Hidden(e, deal.hashlock.value)
    ensures SameWallet(s, e) && e.own == s.own && e.now == s.now
    ensures AgreedFirst(e.cp.world, deal, cid) && e.cp.world.swaps[cid].timelock == other.myTimelock
    ensures e.cp.world.swaps[cid].Active()
  {
    var lock := MineCp(CallOf(cfg, LockRequest(other)));
    OtherSideLocks(s, cfg, n, deal, other, dt, dm);
    LeadsOutside(s0, before, s, lock, deal.hashlock.value);
    cid := OwnId(cfg, n.world.site, LockRequest(other));
    hs, e := before + [Outside(lock)], Moved(s, lock);
  }

  /** The taker's first step, quiet, on fresh chains. */
  lemma QuietTakerPlans(s: Sys, deal: SwapContext)
    requires Honest(s, deal) && s.pc.Idle? && deal.role.Taker? && s.wallet.state.SecretGenerated? && deal.myAmount > 0
    ensures ObservedSys(s, QuietLook()).pc.Planned?
  {
    QuietRefresh(s);
    TakerPlansLock(s, QuietLook(), deal);
  }

  lemma AcceptedSucceeds(b: Sys, deal: SwapContext)
    requires deal.hashlock.Some? && b.pc == Ready(LockRequest(deal)) && LockAccepted(b, deal)
    ensures Succeeds(b, true)
  {}

  lemma QuietTakerLocks(s: Sys, k: Market)
    requires k.Ready() && s == k.Taker().(now := k.n[0])
    ensures Honest(s, k.dt) && ObservedSys(s, QuietLook()).pc.Planned?
    ensures Brink(s, QuietTurn()).pc == Ready(LockRequest(k.dt)) && Succeeds(Brink(s, QuietTurn()), true)
    ensures var e := WholeStep(s, QuietTurn());
      && Honest(e, k.dt) && e.pc.Idle? && e.wallet.state.MyLegLocked? && e.wallet.minConfirmations <= 1
      && e.now == k.n[0] && e.cp == k.maker && e.own.world.site == k.taker.world.site
  {
    TakerLocksFirst(s, k);
    QuietTakerPlans(s, k.dt);
    TakerLocks(s, QuietTurn(), k.dt);
    AcceptedSucceeds(Brink(s, QuietTurn()), k.dt);
  }

  lemma TakerHasLocked(k: Market) returns (hs: seq<Happening>, s: Sys)
    requires k.Ready()
    ensures Leads(k.Taker(), hs, s, k.dt.hashlock.value) && Honest(s, k.dt) && Hidden(s, k.dt.hashlock.value)
    ensures s.pc.Idle? && s.wallet.state.MyLegLocked? && s.now == k.n[0] && s.cp == k.maker && s.wallet.minConfirmations <= 1
    ensures s.own.world.site == k.taker.world.site
  {
    var hash, t0 := k.dt.hashlock.value, k.Taker().(now := k.n[0]);
    StartIsHonest(k.Taker(), k.dt);
    LeadsNowhere(k.Taker(), hash);
    hs, s := LeadsLater(k.Taker(), [], k.Taker(), k.n[0], k.dt);
    QuietTakerLocks(t0, k);
    LeadsThroughStep(k.Taker(), hs, t0, k.dt);
    QuietIsClueless(hash);
    LockStaysHidden(t0, QuietTurn(), k.dt);
    hs := hs + [QuietLook()] + [QuietLook()] + [Happening.Send(true, true)];
    s := WholeStep(t0, QuietTurn());
  }

  /** From fresh contracts and funded accounts a taker comes to redeem, both legs open and in time. */
  lemma BrinkIsReached(k: Market) returns (hs: seq<Happening>, s: Sys)
    requires k.Ready()
    ensures TakerStarts(k.Taker(), k.dt) && Leads(k.Taker(), hs, s, k.dt.hashlock.value) && OnTheBrink(s, k.dt)
    ensures s.now < s.cp.world.swaps[s.pc.tx.contractId].timelock == k.dm.myTimelock
  {
    var hash := k.dt.hashlock.value;
    var before, u, cid := BothLegsLocked(k);
    QuietIsClueless(hash);
    QuietStep(u, k.dt);
    QuietBuried(u, k.dt, cid);
    TakerIsReady(u, QuietTurn(), k.dt, cid);
    LeadsToBrink(k.Taker(), before, u, k.dt);
    hs, s := before + [QuietLook()] + [QuietLook()], Brink(u, QuietTurn());
    StaysOpen(s.cp, s.now, cid, hash);
    ReadyState(s, k.dt);
    OwnLegOpen(s, k.dt);
  }

  lemma OwnLegOpen(s: Sys, deal: SwapContext)
    requires Honest(s, deal) && Hidden(s, deal.hashlock.value) && s.wallet.state == LockedState(deal.role)
    requires s.now < deal.myTimelock
    ensures s.wallet.ownCid.Some? && s.wallet.ownCid.value in s.own.world.swaps
    ensures s.own.world.swaps[s.wallet.ownCid.value].Active()
  {
    StagesTold(s, deal);
    OwnLegIsStored(s, deal);
    StaysOpen(s.own, s.now, s.wallet.ownCid.value, deal.hashlock.value);
  }

  /** So both kinds of failure are reached from there, whatever the contracts' other users are told. */
  lemma LateRedeemIsReached(k: Market, till: U64, mined: bool) returns (hs: seq<Happening>, e: Sys)
    requires k.Ready() && k.n[1] <= till && k.dm.myTimelock <= till < k.dt.myTimelock
    ensures TakerStarts(k.Taker(), k.dt) && Leads(k.Taker(), hs, e, k.dt.hashlock.value)
    ensures OwnLegWithdrawn(e) && e.wallet.cpCid.Some? && CpLegLost(e, e.wallet.cpCid.value)
  {
    var before, s := BrinkIsReached(k);
    hs, e := LateRedeemLoses(k.Taker(), before, s, till, mined, k.dt);
  }

  lemma LostRedeemIsReached(k: Market) returns (hs: seq<Happening>, e: Sys)
    requires k.Ready()
    ensures TakerStarts(k.Taker(), k.dt) && Leads(k.Taker(), hs, e, k.dt.hashlock.value)
    ensures OwnLegWithdrawn(e) && e.pc.Ready? && e.pc.tx.RefundTx? && Some(e.pc.tx.contractId) == e.wallet.ownCid
  {
    var before, s := BrinkIsReached(k);
    hs, e := LostRedeemMisleads(k.Taker(), before, s, k.dt);
  }

  // -------- a revert taken for a success --------

  /**
   * A late redeem that is mined reverts; the receipt comes back all the same, and
   * the executor takes the swap for done while the maker's leg is gone. By
   * `Receipts.RevertedIsFinal` it never notices.
   */
  lemma RevertIsTakenForSuccess(k: Market, till: U64) returns (hs: seq<Happening>, s: Sys)
    requires k.Ready() && k.n[1] <= till && k.dm.myTimelock <= till
    ensures Leads(k.Taker(), hs, s, k.dt.hashlock.value) && Honest(s, k.dt)
    ensures s.pc.Ready? && s.pc.tx.RedeemTx? && !Succeeds(s, true)
    ensures var e := SentSys(s, true, true);
      e.wallet.state.CounterpartyRedeemed? && CpLegLost(e, s.pc.tx.contractId) && e.done == s.done
  {
    var hash := k.dt.hashlock.value;
    hs, s := BrinkIsReached(k);
    var cid := s.pc.tx.contractId;
    TakenBack(s, till, cid, k.dt);
    RefundCallIsClueless(s.cp.world.site, cid, s.cp.world.swaps[cid].sender, hash);
    LeadsOutside(k.Taker(), hs, s, Tick(till), hash);
    LeadsOutside(k.Taker(), hs + [Outside(Tick(till))], Moved(s, Tick(till)), CpRefund(s, cid), hash);
    hs, s := hs + [Outside(Tick(till))] + [Outside(CpRefund(s, cid))], Moved(Moved(s, Tick(till)), CpRefund(s, cid));
    LateRedeemFails(s, true, k.dt);
    ReceiptMovesOn(s, true, true, k.dt);
  }

  // -------- a maker that never refunds --------

  /** The secret is known, the taker's leg past its timelock, and no refund on its way. */
  ghost predicate Stranded(s: Sys, deal: SwapContext) {
    && Honest(s, deal) && deal.role.Maker? && s.wallet.state.WaitingForSecret?
    && s.wallet.ctx.revealedSecret.Some?
    && s.wallet.cpCid.Some? && s.cp.world.swaps[s.wallet.cpCid.value].timelock <= s.now
    && (s.pc.Ready? ==> s.pc.tx.RedeemTx?)
  }

  lemma StrandedOutlives(s: Sys, s1: Sys, deal: SwapContext)
    requires Stranded(s, deal) && Outlived(s, s1) && SysOk(s1)
    ensures Stranded(s1, deal)
  {
    HonestOutlives(s, s1, deal);
    var cid := s.wallet.cpCid.value;
    assert SwapGrew(s.cp.world.swaps[cid], s1.cp.world.swaps[cid], s.now);
  }

  /** Deciding with a secret at hand never means a refund. */
  lemma StrandedDecides(s: Sys, was: Pc, entropy: Word, deal: SwapContext)
    requires Sound(s.wallet, deal) && deal.role.Maker? && s.wallet.state.WaitingForSecret?
    requires s.wallet.ctx.revealedSecret.Some? && s.wallet.cpCid.Some?
    ensures var e := Decided(s, was, entropy);
      e.wallet == s.wallet && (e.pc.Ready? ==> e.pc.tx.RedeemTx?) && e.done == s.done && e.cp == s.cp && e.now == s.now
  {
    HeardSecretIsUsed(s, was, entropy, deal);
  }

  lemma RefreshKeepsSecret(w: Wallet, v: View)
    requires w.ctx.hashlock.Some? && w.ctx.revealedSecret.Some?
    ensures Refreshed(w, v).ctx.revealedSecret.Some?
  {}

  lemma StrandedRefreshes(s: Sys, h: Happening, deal: SwapContext)
    requires Stranded(s, deal) && h.Observe?
    ensures Stranded(RefreshedSys(s, h), deal) && RefreshedSys(s, h).done == s.done
    ensures RefreshedSys(s, h).wallet.ownCid == s.wallet.ownCid && Sound(RefreshedSys(s, h).wallet, deal)
  {
    InstantsOutlive(s, h);
    StrandedOutlives(s, Instants(s, h).2, deal);
    RefreshedIsHonest(s, h, deal);
    RefreshedIsSound(s, h, deal);
    RefreshKeepsProgress(s, h);
    RefreshKeepsSecret(s.wallet, Seen(s, h));
    RefreshKnows(s, h, deal.hashlock.value);
  }

  lemma StrandedObserves(s: Sys, h: Happening, deal: SwapContext)
    requires Stranded(s, deal) && h.Observe?
    ensures Stranded(ObservedSys(s, h), deal) && ObservedSys(s, h).done == s.done
    ensures ObservedSys(s, h).wallet.ownCid == s.wallet.ownCid
  {
    ObserveIsHonest(s, h, deal);
    if s.pc.Ready? {
      InstantsOutlive(s, h);
      StrandedOutlives(s, Instants(s, h).2, deal);
    } else {
      StrandedRefreshes(s, h, deal);
      if Answered(s.wallet, Seen(s, h)) {
        StrandedDecided(RefreshedSys(s, h), s.pc, h.entropy, deal);
      }
    }
  }

  lemma StrandedDecided(s: Sys, was: Pc, entropy: Word, deal: SwapContext)
    requires Stranded(s, deal) && Sound(s.wallet, deal) && Honest(Decided(s, was, entropy), deal)
    ensures var e := Decided(s, was, entropy);
      Stranded(e, deal) && e.done == s.done && e.wallet.ownCid == s.wallet.ownCid
  {
    StrandedDecides(s, was, entropy, deal);
  }

  /** A redeem after the timelock does nothing. */
  lemma StrandedSends(s: Sys, mined: bool, deal: SwapContext)
    requires Stranded(s, deal) && s.pc.Ready?
    ensures !Succeeds(s, mined)
    ensures Stranded(SentSys(s, mined, false), deal) && SentSys(s, mined, false).done == s.done
    ensures SentSys(s, mined, false).wallet.ownCid == s.wallet.ownCid
  {
    if Succeeds(s, mined) {
      RedeemMeans(s.cp.world, s.now, s.pc.tx.contractId, s.pc.tx.secret, TAKES);
    }
    SendIsHonest(s, mined, deal);
    LandedOutlives(s, mined);
    StrandedOutlives(s, Landed(s, mined), deal);
  }

  lemma StrandedGoesOn(s: Sys, h: Happening, deal: SwapContext)
    requires Stranded(s, deal) && Truthful(s, h)
    ensures Stranded(Next(s, h), deal) && Next(s, h).done == s.done && Next(s, h).wallet.ownCid == s.wallet.ownCid
  {
    match h
    case Outside(m) =>
      MoveOutlived(s, m);
      StrandedOutlives(s, Moved(s, m), deal);
    case Observe(_, _, _, _, _) => StrandedObserves(s, h, deal);
    case Send(mined, _) =>
      if s.pc.Ready? { StrandedSends(s, mined, deal); }
  }

  /**
   * Stranded for good: once a maker knows a secret and the taker's leg has passed
   * its timelock, no transaction of the maker's ever takes effect again, whatever
   * happens. Its own leg, if still open, is never refunded by it.
   */
  lemma {:induction false} StrandedForGood(s: Sys, hs: seq<Happening>, deal: SwapContext)
    requires Stranded(s, deal) && TruthfulRun(s, hs)
    ensures var e := Run(s, hs);
      Stranded(e, deal) && e.done == s.done == [LockRequest(deal)] && e.wallet.ownCid == s.wallet.ownCid
    decreases |hs|
  {
    StagesTold(s, deal);
    if hs != [] {
      StrandedForGood(s, hs[..|hs| - 1], deal);
      StrandedGoesOn(Run(s, hs[..|hs| - 1]), hs[|hs| - 1], deal);
    }
  }

  // -------- and how it gets there --------

  /** A one-unit lock of somebody's own, under the same hashlock, redeemed at once to show the secret. */
  datatype Decoy = Decoy(thief: Address, hashlock: Word, timelock: U64, secret: Word)
  {
    function Funds(): Call { Call.Mint(ETH, thief, 1) }
    function Locks(): Call { Call.Lock(thief, 1, thief, ETH, 1, hashlock, timelock) }
    function Id(): Word { ContractId(thief, thief, ETH, 1, hashlock, timelock) }
    function Opens(): Call { Call.Redeem(Id(), secret, TAKES) }
  }

  lemma DecoyFunded(w: World, now: U64, d: Decoy)
    requires WorldInv(w)
    ensures var w1 := After(w, now, d.Funds());
      && WorldInv(w1) && w1.site == w.site && w1.swaps == w.swaps && w1.log == w.log
      && w1.bank.Balance(ETH, d.thief) >= 1
  {
    ExecEvolves(w, now, d.Funds());
  }

  lemma DecoyLocked(w: World, now: U64, d: Decoy)
    requires WorldInv(w) && w.site.External(d.thief) && d.hashlock != 0 && now < d.timelock
    requires d.Id() !in w.swaps && w.bank.Balance(ETH, d.thief) >= 1
    ensures var w1 := After(w, now, d.Locks());
      && WorldInv(w1) && w1.site == w.site
      && w1.swaps == w.swaps[d.Id() := Swap(d.thief, d.thief, ETH, 1, d.hashlock, d.timelock, false, false)]
  {
    assert Pull(w, d.thief, ETH, 1).Some?;
    assert Exec(w, now, d.Locks()).Ok?;
    LockStores(w, now, d.Locks());
    ExecEvolves(w, now, d.Locks());
  }

  lemma DecoyOpened(w: World, now: U64, d: Decoy, other: Word)
    requires WorldInv(w) && w.site.External(d.thief) && SHA256(d.secret) == d.hashlock && now < d.timelock
    requires d.Id() in w.swaps && w.swaps[d.Id()] == Swap(d.thief, d.thief, ETH, 1, d.hashlock, d.timelock, false, false)
    requires other in w.swaps && other != d.Id()
    ensures var w1 := After(w, now, d.Opens());
      && !NoneOpened(w1.log, d.hashlock) && other in w1.swaps && w1.swaps[other] == w.swaps[other]
  {
    RedeemSucceeds(w, now, d.Id(), d.secret);
    RedeemMeans(w, now, d.Id(), d.secret, TAKES);
    PlainRedeemTouchesOne(w, now, d.Id(), d.secret, other);
  }

  ghost function DecoyWorld(w: World, now: U64, d: Decoy): World {
    After(After(After(w, now, d.Funds()), now, d.Locks()), now, d.Opens())
  }

  /** Through all three another lock stays as it was, and the log ends up opening the hashlock. */
  lemma DecoyInWorld(w: World, now: U64, d: Decoy, own: Word)
    requires WorldInv(w) && w.site.External(d.thief) && d.hashlock != 0 && now < d.timelock
    requires SHA256(d.secret) == d.hashlock && d.Id() !in w.swaps && own in w.swaps
    ensures var w3 := DecoyWorld(w, now, d);
      own in w3.swaps && w3.swaps[own] == w.swaps[own] && !NoneOpened(w3.log, d.hashlock)
  {
    DecoyFunded(w, now, d);
    DecoyLocked(After(w, now, d.Funds()), now, d);
    DecoyOpened(After(After(w, now, d.Funds()), now, d.Locks()), now, d, own);
  }

  function AfterDecoy(s: Sys, d: Decoy): Sys {
    Moved(Moved(Moved(s, MineOwn(d.Funds())), MineOwn(d.Locks())), MineOwn(d.Opens()))
  }

  lemma DecoyKeepsRest(s: Sys, d: Decoy)
    ensures var e := AfterDecoy(s, d);
      SameWallet(s, e) && e.cp == s.cp && e.now == s.now && e.own.world == DecoyWorld(s.own.world, s.now, d)
  {}

  lemma DecoyPlayed(s0: Sys, hs: seq<Happening>, s: Sys, d: Decoy, deal: SwapContext) returns (played: seq<Happening>)
    requires Honest(s, deal) && Reaches(s0, hs, s)
    ensures hs <= played && Reaches(s0, played, AfterDecoy(s, d)) && Honest(AfterDecoy(s, d), deal)
  {
    var s1 := Moved(s, MineOwn(d.Funds()));
    var s2 := Moved(s1, MineOwn(d.Locks()));
    MovedIsHonest(s, MineOwn(d.Funds()), deal);
    MovedIsHonest(s1, MineOwn(d.Locks()), deal);
    MovedIsHonest(s2, MineOwn(d.Opens()), deal);
    ReachesOn(s0, hs, s, Outside(MineOwn(d.Funds())));
    ReachesOn(s0, hs + [Outside(MineOwn(d.Funds()))], s1, Outside(MineOwn(d.Locks())));
    ReachesOn(s0, hs + [Outside(MineOwn(d.Funds()))] + [Outside(MineOwn(d.Locks()))], s2, Outside(MineOwn(d.Opens())));
    played := hs + [Outside(MineOwn(d.Funds()))] + [Outside(MineOwn(d.Locks()))] + [Outside(MineOwn(d.Opens()))];
  }

  /** A maker that looks after that is stranded. */
  lemma LookStrands(s: Sys, deal: SwapContext)
    requires Honest(s, deal) && deal.role.Maker? && s.wallet.state.WaitingForSecret? && s.pc.Idle?
    requires !NoneOpened(s.own.world.log, deal.hashlock.value)
    requires s.wallet.cpCid.Some? && s.cp.world.swaps[s.wallet.cpCid.value].timelock <= s.now
    ensures var e := ObservedSys(s, QuietLook());
      Stranded(e, deal) && e.own == s.own && e.cp == s.cp && e.now == s.now && e.wallet.ownCid == s.wallet.ownCid
  {
    QuietRefresh(s);
    HeardIsDecided(s, QuietLook(), deal);
    MakerHears(s, QuietLook(), deal);
    ObserveIsHonest(s, QuietLook(), deal);
    QuietKeepsChains(s);
    RefreshKeepsProgress(s, QuietLook());
  }

  /** The maker's quiet step on its fresh chain, once the taker has locked. */
  lemma QuietMakerPlans(s: Sys, k: Market, cid: Word)
    requires k.Ready() && MakerWaits(s, k) && Honest(s, k.dm) && Hidden(s, k.dm.hashlock.value)
    requires AgreedFirst(s.cp.world, k.dm, cid) && s.cp.world.swaps[cid].timelock == k.dt.myTimelock
    ensures LockAccepted(s, k.dm) && ObservedSys(s, QuietLook()).pc.Planned?
  {
    FundedLockAccepted(s, k.dm);
    QuietStep(s, k.dm);
    QuietIsClueless(k.dm.hashlock.value);
    QuietBuried(s, k.dm, cid);
    MakerPlansLock(s, QuietTurn(), k.dm, cid);
  }

  lemma QuietMakerStep(s: Sys, k: Market, cid: Word)
    requires k.Ready() && MakerWaits(s, k) && Honest(s, k.dm) && Hidden(s, k.dm.hashlock.value)
    requires AgreedFirst(s.cp.world, k.dm, cid) && s.cp.world.swaps[cid].timelock == k.dt.myTimelock
    requires LockAccepted(s, k.dm)
    ensures Brink(s, QuietTurn()).pc == Ready(LockRequest(k.dm)) && Succeeds(Brink(s, QuietTurn()), true)
    ensures var e := WholeStep(s, QuietTurn());
      && Honest(e, k.dm) && e.pc.Idle? && e.wallet.state.WaitingForSecret? && e.wallet.cpCid == Some(cid)
      && e.cp == s.cp && e.now == k.n[1] && Hidden(e, k.dm.hashlock.value)
      && e.own.world == After(k.maker.world, k.n[1], CallOf(k.cm, LockRequest(k.dm)))
      && e.wallet.ownCid == Some(OwnId(k.cm, k.maker.world.site, LockRequest(k.dm)))
  {
    QuietStep(s, k.dm);
    QuietIsClueless(k.dm.hashlock.value);
    QuietMakerLocks(s, k.dm, cid);
    QuietLock(s, k.dm);
    LockStaysHidden(s, QuietTurn(), k.dm);
    SameWorldAccepts(s, Brink(s, QuietTurn()), k.dm);
    AcceptedSucceeds(Brink(s, QuietTurn()), k.dm);
  }

  lemma SameWorldAccepts(s: Sys, b: Sys, deal: SwapContext)
    requires deal.hashlock.Some? && LockAccepted(s, deal) && b.own == s.own && b.now == s.now && b.cfg == s.cfg
    ensures LockAccepted(b, deal)
  {}

  /** The maker has locked second; its leg is the only lock on its chain. */
  ghost predicate MakerLocked(s: Sys, dt: SwapContext, dm: SwapContext, own: Word, cid: Word) {
    && Honest(s, dm) && s.pc.Idle? && s.wallet.state.WaitingForSecret? && dm.role.Maker?
    && s.wallet.cpCid == Some(cid) && s.wallet.ownCid == Some(own)
    && cid in s.cp.world.swaps && s.cp.world.swaps[cid].Active() && s.cp.world.swaps[cid].timelock == dt.myTimelock
    && s.own.world.swaps.Keys == {own} && s.own.world.swaps[own].Active()
  }

  lemma OnlyLockThere(k: Market)
    requires k.Ready()
    ensures var (w1, own) := (After(k.maker.world, k.n[1], CallOf(k.cm, LockRequest(k.dm))),
                              OwnId(k.cm, k.maker.world.site, LockRequest(k.dm)));
      w1.site == k.maker.world.site && w1.swaps.Keys == {own} && w1.swaps[own].Active()
  {
    OtherLockIsFirst(k.maker, k.n[1], k.cm, k.dm, k.dt, k.dm);
  }

  lemma MakerHasLocked(k: Market) returns (hs: seq<Happening>, s: Sys, cid: Word)
    requires k.Ready()
    ensures Leads(k.Maker(), hs, s, k.dt.hashlock.value) && s.now == k.n[1] && s.own.world.site == k.maker.world.site
    ensures MakerLocked(s, k.dt, k.dm, OwnId(k.cm, k.maker.world.site, LockRequest(k.dm)), cid)
  {
    var waits;
    hs, waits, cid := TakerLocksForMaker(k);
    QuietMakerPlans(waits, k, cid);
    QuietMakerStep(waits, k, cid);
    OnlyLockThere(k);
    LeadsThroughStep(k.Maker(), hs, waits, k.dm);
    hs := hs + [QuietLook()] + [QuietLook()] + [Happening.Send(true, true)];
    s := WholeStep(waits, QuietTurn());
  }

  /** Up to the maker's first step. */
  lemma TakerLocksForMaker(k: Market) returns (hs: seq<Happening>, s: Sys, cid: Word)
    requires k.Ready()
    ensures Leads(k.Maker(), hs, s, k.dt.hashlock.value) && MakerWaits(s, k) && Honest(s, k.dm)
    ensures Hidden(s, k.dm.hashlock.value) && AgreedFirst(s.cp.world, k.dm, cid)
    ensures s.cp.world.swaps[cid].Active() && s.cp.world.swaps[cid].timelock == k.dt.myTimelock
  {
    var m := k.Maker();
    StartIsHonest(m, k.dm);
    LeadsNowhere(m, k.dm.hashlock.value);
    hs, s := LeadsLater(m, [], m, k.n[0], k.dm);
    hs, s, cid := LeadsToOtherLock(m, hs, s, k.ct, k.taker, k.dm, k.dt, k.dt, k.dm);
    hs, s := LeadsLater(m, hs, s, k.n[1], k.dm);
  }

  // -------- the stranding itself --------

  /** The taker's leg expires and is refunded. */
  lemma TakerTakesBack(s0: Sys, hs: seq<Happening>, s: Sys, till: U64, own: Word, cid: Word, dt: SwapContext, dm: SwapContext)
    returns (back: seq<Happening>, e: Sys)
    requires MakerLocked(s, dt, dm, own, cid) && Reaches(s0, hs, s) && s.now <= till && dt.myTimelock <= till
    ensures hs <= back && Reaches(s0, back, e) && Honest(e, dm) && e.now == till && SameWallet(s, e) && e.own == s.own
    ensures CpLegLost(e, cid) && e.cp.world.swaps[cid].timelock == dt.myTimelock
  {
    var s1, m := Moved(s, Tick(till)), CpRefund(s, cid);
    TakenBack(s, till, cid, dm);
    TakenBackKeepsTerms(s, till, cid, dm);
    ReachesOn(s0, hs, s, Outside(Tick(till)));
    ReachesOn(s0, hs + [Outside(Tick(till))], s1, Outside(m));
    back := hs + [Outside(Tick(till))] + [Outside(m)];
    e := Moved(s1, m);
  }

  lemma DecoyIsNew(own: Word, deal: SwapContext, sender: Address, d: Decoy)
    requires deal.hashlock.Some? && sender != d.thief
    requires own == ContractId(sender, deal.myRecipient, deal.myToken, deal.myAmount, deal.hashlock.value, deal.myTimelock)
    requires !Collides(AbiWords(LockFields(d.thief, d.thief, ETH, 1, d.hashlock, d.timelock)),
                       AbiWords(LockFields(sender, deal.myRecipient, deal.myToken, deal.myAmount, deal.hashlock.value, deal.myTimelock)))
    ensures d.Id() != own
  {
    if d.Id() == own {
      ContractIdBindsEveryField(d.thief, d.thief, ETH, 1, d.hashlock, d.timelock,
                                sender, deal.myRecipient, deal.myToken, deal.myAmount, deal.hashlock.value, deal.myTimelock);
    }
  }

  /** The wallet is stranded although its own leg is open and its time is up. */
  ghost predicate StrandedWithLeg(e: Sys, own: Word, cid: Word, deal: SwapContext) {
    && Stranded(e, deal) && e.wallet.ownCid == Some(own) && e.wallet.cpCid == Some(cid)
    && own in e.own.world.swaps && e.own.world.swaps[own].Active() && deal.myTimelock <= e.now
    && CpLegLost(e, cid)
  }

  /** The maker with its leg open, the taker's leg gone, about to learn the secret. */
  ghost predicate AboutToStrand(s: Sys, own: Word, cid: Word, deal: SwapContext) {
    && Honest(s, deal) && deal.role.Maker? && s.wallet.state.WaitingForSecret? && s.pc.Idle?
    && s.wallet.ownCid == Some(own) && s.wallet.cpCid == Some(cid) && CpLegLost(s, cid)
    && s.cp.world.swaps[cid].timelock <= s.now && deal.myTimelock <= s.now
    && own in s.own.world.swaps && s.own.world.swaps[own].Active()
  }

  lemma SecretStrands(s: Sys, own: Word, cid: Word, deal: SwapContext)
    requires AboutToStrand(s, own, cid, deal) && !NoneOpened(s.own.world.log, deal.hashlock.value)
    ensures StrandedWithLeg(ObservedSys(s, QuietLook()), own, cid, deal)
  {
    LookStrands(s, deal);
    LookKeepsCp(s, deal);
  }

  lemma LookKeepsCp(s: Sys, deal: SwapContext)
    requires Honest(s, deal) && s.wallet.state.WaitingForSecret? && deal.role.Maker? && s.pc.Idle?
    requires !NoneOpened(s.own.world.log, deal.hashlock.value)
    ensures ObservedSys(s, QuietLook()).wallet.cpCid == s.wallet.cpCid
  {
    QuietRefresh(s);
    HeardIsDecided(s, QuietLook(), deal);
    MakerHears(s, QuietLook(), deal);
  }

  lemma AboutStays(s: Sys, e: Sys, own: Word, cid: Word, deal: SwapContext)
    requires AboutToStrand(s, own, cid, deal) && Honest(e, deal) && SameWallet(s, e) && e.cp == s.cp && e.now == s.now
    requires own in e.own.world.swaps && e.own.world.swaps[own] == s.own.world.swaps[own]
    ensures AboutToStrand(e, own, cid, deal)
  {}

  lemma DecoyFacts(s: Sys, d: Decoy, own: Word)
    requires SysOk(s) && s.own.world.site.External(d.thief) && d.hashlock != 0 && s.now < d.timelock
    requires SHA256(d.secret) == d.hashlock && d.Id() !in s.own.world.swaps && own in s.own.world.swaps
    ensures var e := AfterDecoy(s, d);
      && SameWallet(s, e) && e.cp == s.cp && e.now == s.now
      && own in e.own.world.swaps && e.own.world.swaps[own] == s.own.world.swaps[own]
      && !NoneOpened(e.own.world.log, d.hashlock)
  {
    DecoyKeepsRest(s, d);
    DecoyInWorld(s.own.world, s.now, d, own);
  }

  lemma DecoyPlayedTo(s0: Sys, hs: seq<Happening>, s: Sys, d: Decoy, own: Word, deal: SwapContext)
    returns (played: seq<Happening>, e: Sys)
    requires Honest(s, deal) && Reaches(s0, hs, s)
    requires s.own.world.site.External(d.thief) && d.hashlock != 0 && s.now < d.timelock
    requires SHA256(d.secret) == d.hashlock && d.Id() !in s.own.world.swaps && own in s.own.world.swaps
    ensures Reaches(s0, played, e) && Honest(e, deal)
    ensures SameWallet(s, e) && e.cp == s.cp && e.now == s.now
    ensures own in e.own.world.swaps && e.own.world.swaps[own] == s.own.world.swaps[own]
    ensures !NoneOpened(e.own.world.log, d.hashlock)
  {
    played := DecoyPlayed(s0, hs, s, d, deal);
    DecoyFacts(s, d, own);
    e := AfterDecoy(s, d);
  }

  lemma DecoyPlays(s0: Sys, hs: seq<Happening>, s: Sys, d: Decoy, own: Word, cid: Word, deal: SwapContext)
    returns (played: seq<Happening>, e: Sys)
    requires AboutToStrand(s, own, cid, deal) && Reaches(s0, hs, s)
    requires s.own.world.site.External(d.thief) && d.hashlock == deal.hashlock.value != 0 && s.now < d.timelock
    requires SHA256(d.secret) == d.hashlock && s.own.world.swaps.Keys == {own} && d.Id() != own
    ensures Reaches(s0, played, e) && AboutToStrand(e, own, cid, deal)
    ensures !NoneOpened(e.own.world.log, deal.hashlock.value)
  {
    played, e := DecoyPlayedTo(s0, hs, s, d, own, deal);
    AboutStays(s, e, own, cid, deal);
  }

  lemma LookReaches(s0: Sys, hs: seq<Happening>, s: Sys)
    requires Reaches(s0, hs, s)
    ensures Reaches(s0, hs + [QuietLook()], ObservedSys(s, QuietLook()))
  {
    ReachesOn(s0, hs, s, QuietLook());
  }

  lemma DecoyStrands(s0: Sys, hs: seq<Happening>, s: Sys, d: Decoy, own: Word, cid: Word, deal: SwapContext)
    returns (ends: seq<Happening>, e: Sys)
    requires AboutToStrand(s, own, cid, deal) && Reaches(s0, hs, s)
    requires s.own.world.site.External(d.thief) && d.hashlock == deal.hashlock.value != 0 && s.now < d.timelock
    requires SHA256(d.secret) == d.hashlock && s.own.world.swaps.Keys == {own} && d.Id() != own
    ensures Reaches(s0, ends, e) && StrandedWithLeg(e, own, cid, deal)
  {
    var played, s1 := DecoyPlays(s0, hs, s, d, own, cid, deal);
    SecretStrands(s1, own, cid, deal);
    LookReaches(s0, played, s1);
    ends, e := played + [QuietLook()], ObservedSys(s1, QuietLook());
  }

  lemma TakerIsGone(k: Market, till: U64) returns (hs: seq<Happening>, s: Sys, own: Word, cid: Word)
    requires k.Ready() && k.n[1] <= till && k.dt.myTimelock <= till
    ensures Reaches(k.Maker(), hs, s) && AboutToStrand(s, own, cid, k.dm)
    ensures own == OwnId(k.cm, k.maker.world.site, LockRequest(k.dm))
    ensures s.own.world.site == k.maker.world.site && s.now == till && s.own.world.swaps.Keys == {own}
  {
    hs, s, cid := MakerHasLocked(k);
    own := OwnId(k.cm, k.maker.world.site, LockRequest(k.dm));
    hs, s := TakerTakesBack(k.Maker(), hs, s, till, own, cid, k.dt, k.dm);
  }

  /** The decoy's lock and the maker's leg do not share an id, unless keccak256 collides on just these two. */
  ghost predicate DecoyApart(k: Market, d: Decoy)
    requires k.dm.hashlock.Some?
  {
    var sender, deal := LockSender(k.cm, k.maker.world.site), k.dm;
    && sender != d.thief
    && !Collides(AbiWords(LockFields(d.thief, d.thief, ETH, 1, d.hashlock, d.timelock)),
                 AbiWords(LockFields(sender, deal.myRecipient, deal.myToken, deal.myAmount, deal.hashlock.value, deal.myTimelock)))
  }

  /**
   * A run from fresh contracts that strands the maker. It locks; the taker lets its
   * own leg expire and takes it back; then somebody shows the secret on the
   * maker's chain through a one-unit lock under the same hashlock. The maker, not
   * having looked in between, hears the secret with its own leg open and expired,
   * and by `StrandedForGood` never refunds it.
   */
  lemma StrandedIsReached(k: Market, till: U64, d: Decoy) returns (hs: seq<Happening>, e: Sys, own: Word, cid: Word)
    requires k.Ready() && k.n[1] <= till && k.dt.myTimelock <= till < d.timelock
    requires d.hashlock == k.dt.hashlock.value && k.dt.secret == Some(d.secret)
    requires k.maker.world.site.External(d.thief) && DecoyApart(k, d)
    ensures Starts(k.Maker(), k.dm) && Reaches(k.Maker(), hs, e) && StrandedWithLeg(e, own, cid, k.dm)
  {
    var s;
    hs, s, own, cid := TakerIsGone(k, till);
    DecoyIsNew(own, k.dm, LockSender(k.cm, k.maker.world.site), d);
    hs, e := DecoyStrands(k.Maker(), hs, s, d, own, cid, k.dm);
  }
}
