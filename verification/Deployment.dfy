/** From freshly deployed contracts, funded accounts and two signed orders to a finished swap. */
module Deployment {
  import opened Primitives
  import opened Encoding
  import opened Orders
  import opened Ledger
  import opened LedgerInvariants
  import opened Observer
  import opened StateMachine
  import opened Executor
  import opened TxOutcomes
  import opened SwapSystem
  import opened WalletRuns
  import opened WalletTheorems
  import opened MakerSafety
  import opened TakerSafety
  import opened Completion
  import opened QuietSteps
  import opened Handshake
  import opened Matching
  import opened Book

  ghost predicate Deployed(n: Node) {
    Genesis(n.world) && n.blocks != [] && Flatten(n.blocks) == []
  }

  lemma DeployedIsOk(n: Node, now: U64)
    requires Deployed(n)
    ensures NodeOk(n, now)
  {
    GenesisInv(n.world);
  }

  /** A wallet as the runner builds it. */
  function StartOf(cfg: Config, deal: SwapContext, own: Node, cp: Node): Sys {
    Sys(cfg, deal.now, own, cp,
        Wallet(StartState(deal.role), deal, Fresh(own.world.site.chainId), Fresh(cp.world.site.chainId), None, None, 1),
        Idle, {}, [])
  }

  // -------- a funded account can lock --------

  /**
   * The account can pay for its leg and has approved whoever pulls a token from
   * it; locking through Settlement it also has a valid order for this chain.
   */
  predicate Funded(w: World, now: U64, cfg: Config, deal: SwapContext)
    requires deal.hashlock.Some?
  {
    var puller := if cfg.path.Direct? then w.site.htlc else w.site.settlement;
    && cfg.account == deal.me && w.site.External(deal.me)
    && deal.myAmount <= w.bank.Balance(deal.myToken, deal.me)
    && (deal.myToken != ETH ==>
          deal.myToken in w.bank.code && deal.myAmount <= w.bank.Allowance(deal.myToken, deal.me, puller))
    && (cfg.path.ViaSettlement? ==>
          && cfg.path.sellChainId == w.site.chainId
          && SignedBy(LockOrder(cfg, LockRequest(deal)), cfg.path.signature, now))
  }

  lemma FundedDirectLock(w: World, now: U64, cfg: Config, deal: SwapContext)
    requires w.swaps == map[] && deal.hashlock.Some? && Funded(w, now, cfg, deal) && cfg.path.Direct?
    requires deal.hashlock.value != 0 && deal.myAmount > 0 && now < deal.myTimelock
    ensures Exec(w, now, CallOf(cfg, LockRequest(deal))).Ok?
  {
    assert Pull(w, deal.me, deal.myToken, deal.myAmount).Some?;
  }

  /** The same through Settlement: the order is accepted, the funds come in and go on into the lock. */
  lemma FundedSettleLock(w: World, now: U64, cfg: Config, deal: SwapContext)
    requires w.site.Valid() && w.swaps == map[] && w.nonces == {}
    requires deal.hashlock.Some? && Funded(w, now, cfg, deal) && cfg.path.ViaSettlement?
    requires deal.hashlock.value != 0 && deal.myAmount > 0 && now < deal.myTimelock
    ensures Exec(w, now, CallOf(cfg, LockRequest(deal))).Ok?
  {
    FundsArrive(w, now, cfg, deal, LockOrder(cfg, LockRequest(deal)));
  }

  lemma FundsArrive(w: World, now: U64, cfg: Config, deal: SwapContext, order: Terms)
    requires w.site.Valid() && w.swaps == map[] && w.nonces == {}
    requires deal.hashlock.Some? && Funded(w, now, cfg, deal) && cfg.path.ViaSettlement?
    requires deal.hashlock.value != 0 && deal.myAmount > 0 && now < deal.myTimelock
    requires order == LockOrder(cfg, LockRequest(deal))
    ensures var value := if deal.myToken == ETH then deal.myAmount else 0;
      Settle(w, now, deal.me, value, order, cfg.path.signature, deal.myRecipient, deal.hashlock.value, deal.myTimelock).Ok?
  {
    AcceptedOnChain(order, cfg.path.signature, now);
    var me, h := w.site.settlement, deal.hashlock.value;
    var cid := ContractId(me, deal.myRecipient, order.sellToken, order.sellAmount, h, deal.myTimelock);
    var w1 := w.(nonces := w.nonces + {(order.maker, order.nonce)},
                 legs := w.legs[cid := Leg(order.maker, order.sellToken, order.sellAmount, false)]);
    if deal.myToken == ETH {
      var bank := w1.bank.Transfer(ETH, deal.me, me, deal.myAmount).value;
      assert bank.Balance(ETH, me) >= deal.myAmount;
      assert Pull(w1.(bank := bank), me, ETH, deal.myAmount).Some?;
    } else {
      var bank := w1.bank.TransferFrom(deal.myToken, me, deal.me, me, deal.myAmount).value;
      var approved := bank.Approve(deal.myToken, me, w.site.htlc, deal.myAmount);
      assert approved.Balance(deal.myToken, me) >= deal.myAmount;
      assert approved.Allowance(deal.myToken, me, w.site.htlc) == deal.myAmount;
      assert Pull(w1.(bank := approved), me, deal.myToken, deal.myAmount).Some?;
    }
  }

  /** On a chain with no locks and no used nonces yet, a funded account's lock goes through, on either path. */
  lemma FundedLockAccepted(s: Sys, deal: SwapContext)
    requires s.own.world.site.Valid() && s.own.world.swaps == map[] && s.own.world.nonces == {}
    requires deal.hashlock.Some? && Funded(s.own.world, s.now, s.cfg, deal)
    requires deal.hashlock.value != 0 && deal.myAmount > 0 && s.now < deal.myTimelock
    ensures LockAccepted(s, deal)
  {
    if s.cfg.path.Direct? {
      FundedDirectLock(s.own.world, s.now, s.cfg, deal);
    } else {
      FundedSettleLock(s.own.world, s.now, s.cfg, deal);
    }
  }

  // -------- a quiet lock on a chain without locks is the first one --------

  /** What a quiet step that locks makes of the chains. */
  lemma QuietLock(s: Sys, deal: SwapContext)
    requires Honest(s, deal) && LockAccepted(s, deal) && Brink(s, QuietTurn()).pc == Ready(LockRequest(deal))
    ensures var e := WholeStep(s, QuietTurn());
      && e.cp == s.cp && e.now == s.now && e.cfg == s.cfg
      && e.wallet.ownCid == Some(OwnId(s.cfg, s.own.world.site, LockRequest(deal)))
      && e.own.world == After(s.own.world, s.now, CallOf(s.cfg, LockRequest(deal)))
      && (s.own.world.log == [] ==> LockedFirst(e, deal))
  {
    var b := Brink(s, QuietTurn());
    QuietStep(s, deal);
    BrinkIsHonest(s, QuietTurn(), deal);
    LandedOutlives(b, true);
    ReadyState(b, deal);
    Completes(b.wallet, b.pc.tx, OwnId(b.cfg, Landed(b, true).own.world.site, b.pc.tx), deal.role);
    LockStores(s.own.world, s.now, CallOf(s.cfg, LockRequest(deal)));
    if s.own.world.log == [] {
      var log := After(s.own.world, s.now, CallOf(s.cfg, LockRequest(deal))).log;
      assert FirstFiledAt(log, deal.hashlock.value, 0);
    }
  }

  lemma DeploymentStarts(dt: SwapContext, dm: SwapContext, ct: Config, cm: Config, taker: Node, maker: Node)
    requires Deployed(taker) && Deployed(maker) && Agreed(dt) && Agreed(dm) && Paired(dt, dm) && dt.now == dm.now
    requires dt.counterpartyLock.None? && dt.revealedSecret.None? && !dt.myLegLocked
    requires dm.counterpartyLock.None? && dm.revealedSecret.None? && !dm.myLegLocked
    requires dt.me != maker.world.site.htlc && dm.me != taker.world.site.htlc
    ensures DuoStarts(StartOf(ct, dt, taker, maker), StartOf(cm, dm, maker, taker), dt, dm)
    ensures TakerStarts(StartOf(ct, dt, taker, maker), dt)
  {
    DeployedIsOk(taker, dt.now);
    DeployedIsOk(maker, dt.now);
  }

  /** All four turns of the play are quiet. */
  function Turns(): (ts: seq<Turn>)
    ensures |ts| == 4 && forall i :: 0 <= i < 4 ==> ts[i] == QuietTurn()
  {
    [QuietTurn(), QuietTurn(), QuietTurn(), QuietTurn()]
  }

  /** Both sides of a swap on two fresh chains: who locks how, and when each step is taken. */
  datatype Market = Market(dt: SwapContext, dm: SwapContext, ct: Config, cm: Config, taker: Node, maker: Node, n: seq<U64>)
  {
    function Taker(): Sys { StartOf(ct, dt, taker, maker) }
    function Maker(): Sys { StartOf(cm, dm, maker, taker) }

    /** The two rounds, with nobody else moving. */
    ghost function Play(): Rounds
      requires |n| == 4
    {
      TwoRounds(Taker(), Maker(), n, Turns())
    }

    /** Fresh contracts, funded accounts, steps in order and in time for the maker's lock. */
    ghost predicate Ready() {
      && Deployed(taker) && Deployed(maker) && Paired(dt, dm) && |n| == 4
      && dt.hashlock.value != 0 && dt.me != maker.world.site.htlc && dm.me != taker.world.site.htlc
      && DuoStarts(Taker(), Maker(), dt, dm)
      && dt.now <= n[0] <= n[1] <= n[2] <= n[3]
      && TimeLeft(n[2], dt, dm.myTimelock) && n[3] < dt.myTimelock
      && Funded(taker.world, n[0], ct, dt) && Funded(maker.world, n[1], cm, dm)
    }
  }

  /** The taker's quiet step on its fresh chain. */
  lemma TakerLocksFirst(s: Sys, k: Market)
    requires k.Ready() && s == k.Taker().(now := k.n[0])
    ensures Honest(s, k.dt) && GoesThrough(s, QuietTurn()) && LockAccepted(Brink(s, QuietTurn()), k.dt)
    ensures var e := WholeStep(s, QuietTurn()); LockedFirst(e, k.dt) && e.now == k.n[0] && e.cp == k.maker
  {
    StartIsHonest(k.Taker(), k.dt);
    Completion.Waiting(k.Taker(), k.n[0], k.dt);
    FundedLockAccepted(s, k.dt);
    QuietStep(s, k.dt);
    TakerLocks(s, QuietTurn(), k.dt);
    QuietLock(s, k.dt);
  }

  lemma FirstStepPlaysQuietly(r: Rounds, k: Market)
    requires k.Ready() && r.t0 == k.Taker().(now := k.n[0]) && r.t1 == WholeStep(r.t0, QuietTurn()) && r.m0.now == k.n[1]
    ensures FirstStepPlays(r, Turns(), k.dt, k.dm) && r.t1.cp == k.maker
  {
    QuietIsClueless(k.dt.hashlock.value);
    TakerLocksFirst(r.t0, k);
  }

  lemma FirstStepGoesThrough(k: Market)
    requires k.Ready()
    ensures FirstStepPlays(k.Play(), Turns(), k.dt, k.dm)
    ensures var r := k.Play(); TakerLocked(r, k.dt, k.dm) && LockedFirst(r.t1, k.dt) && r.t1.wallet.minConfirmations <= 1
    ensures MakerWaits(k.Play().m0, k)
  {
    FirstStepPlaysQuietly(k.Play(), k);
    RoundOneTaker(k.Taker(), k.Maker(), k.dt, k.dm, k.n, Turns());
  }

  /** The maker before its first step, its own chain untouched. */
  ghost predicate MakerWaits(s: Sys, k: Market) {
    && s.own == k.maker && s.cfg == k.cm && s.now == (if |k.n| == 4 then k.n[1] else 0)
    && s.pc.Idle? && s.wallet.state.Start? && s.wallet.minConfirmations <= 1
  }

  lemma StepEndsAtBrink(s: Sys, t: Turn, deal: SwapContext)
    requires Honest(s, deal) && Proper(t)
    ensures WholeStep(s, t).now == Brink(s, t).now
  {
    BrinkIsHonest(s, t, deal);
    SendingTakesNoTime(Brink(s, t), t.mined, t.receipt);
  }

  lemma SendingTakesNoTime(s: Sys, mined: bool, receipt: bool)
    ensures SentSys(s, mined, receipt).now == s.now
  {}

  /** The maker's quiet step on its fresh chain. */
  lemma MakerLocksFirst(s: Sys, k: Market, cid: Word)
    requires k.Ready() && MakerWaits(s, k) && Honest(s, k.dm) && Hidden(s, k.dm.hashlock.value)
    requires AgreedFirst(s.cp.world, k.dm, cid) && s.cp.world.swaps[cid].timelock == k.dt.myTimelock
    ensures GoesThrough(s, QuietTurn()) && LockAccepted(Brink(s, QuietTurn()), k.dm) && Brink(s, QuietTurn()).now == k.n[1]
    ensures var e := WholeStep(s, QuietTurn());
      LockedFirst(e, k.dm) && e.now == k.n[1] && e.own.world.site == k.maker.world.site
    ensures Buried(s, QuietLook(), cid)
  {
    QuietIsClueless(k.dt.hashlock.value);
    FundedLockAccepted(s, k.dm);
    QuietStep(s, k.dm);
    QuietMakerLocks(s, k.dm, cid);
    QuietLock(s, k.dm);
  }

  lemma QuietMakerLocks(s: Sys, deal: SwapContext, cid: Word)
    requires Honest(s, deal) && s.pc.Idle? && deal.role.Maker? && s.wallet.state.Start? && deal.myAmount > 0
    requires LockAccepted(s, deal) && s.wallet.minConfirmations <= 1 && Hidden(s, deal.hashlock.value)
    requires AgreedFirst(s.cp.world, deal, cid) && TimeLeft(s.now, deal, s.cp.world.swaps[cid].timelock)
    ensures Brink(s, QuietTurn()).pc == Ready(LockRequest(deal))
    ensures WholeStep(s, QuietTurn()).own.world.site == s.own.world.site
    ensures WholeStep(s, QuietTurn()).wallet.cpCid == Some(cid)
    ensures WholeStep(s, QuietTurn()).wallet.state.WaitingForSecret? && Honest(WholeStep(s, QuietTurn()), deal)
    ensures WholeStep(s, QuietTurn()).pc == Idle && Buried(s, QuietLook(), cid)
  {
    QuietBuried(s, deal, cid);
    QuietIsClueless(deal.hashlock.value);
    QuietStep(s, deal);
    MakerLocks(s, QuietTurn(), deal, cid);
  }

  lemma SecondStepPlaysQuietly(r: Rounds, k: Market)
    requires k.Ready() && TakerLocked(r, k.dt, k.dm) && MakerWaits(r.m0, k)
    requires r.m1 == WholeStep(r.m0, QuietTurn()) && r.t2.now == k.n[2]
    ensures SecondStepPlays(r, Turns(), k.dt, k.dm) && r.m1.own.world.site == k.maker.world.site
  {
    QuietIsClueless(k.dt.hashlock.value);
    MakerLocksFirst(r.m0, k, r.t1.wallet.ownCid.value);
  }

  lemma SecondStepGoesThrough(k: Market)
    requires k.Ready()
    ensures var r := k.Play();
      && SecondStepPlays(r, Turns(), k.dt, k.dm) && Stepped(r.m0, r.m1, k.dm) && BothLocked(r.t1, r.m1, k.dt, k.dm)
      && AgreedFirst(r.m1.cp.world, k.dm, r.t1.wallet.ownCid.value)
      && r.m1.cp.world.swaps[r.t1.wallet.ownCid.value].timelock == k.dt.myTimelock
      && Facing(r.m0, r.t1) && r.t1.now <= r.m0.now && r.m1.now <= r.t2.now && r.t1.wallet.minConfirmations <= 1
      && r.m1.own.world.site == k.maker.world.site
  {
    FirstStepGoesThrough(k);
    SecondStepPlaysQuietly(k.Play(), k);
    RoundOneMaker(k.Play(), Turns(), k.dt, k.dm);
  }

  lemma MakerLegIsBuried(r: Rounds, k: Market)
    requires k.Ready() && Honest(r.t2, k.dt) && r.t2.now == k.n[2]
    requires BothLocked(r.t1, r.m1, k.dt, k.dm) && r.t1.wallet.minConfirmations <= 1 && r.t2 == Meanwhile(r.t1, r.m1, r.t2.now)
    ensures r.m1.wallet.ownCid.Some? && Buried(r.t2, QuietLook(), r.m1.wallet.ownCid.value)
  {
    LockedFirstIsAgreed(r.m1, k.dm, k.dt, k.dm);
    QuietBuried(r.t2, k.dt, r.m1.wallet.ownCid.value);
  }

  lemma QuietRedeem(r: Rounds, k: Market)
    requires k.Ready() && Honest(r.t2, k.dt) && r.t2.now == k.n[2] && r.m2.now == k.n[3]
    requires BothLocked(r.t1, r.m1, k.dt, k.dm) && r.t1.wallet.minConfirmations <= 1 && r.t2 == Meanwhile(r.t1, r.m1, r.t2.now)
    requires r.t3 == WholeStep(r.t2, QuietTurn())
    ensures ThirdStepPlays(r, Turns(), k.dt, k.dm)
  {
    QuietIsClueless(k.dt.hashlock.value);
    QuietStep(r.t2, k.dt);
    MakerLegIsBuried(r, k);
    StepEndsAtBrink(r.t2, QuietTurn(), k.dt);
  }

  lemma ThirdStepGoesThrough(k: Market)
    requires k.Ready()
    ensures var r := k.Play();
      && ThirdStepPlays(r, Turns(), k.dt, k.dm)
      && Facing(r.m1, r.t2) && Stepped(r.t2, r.t3, k.dt) && r.t3.wallet.cpCid == r.m1.wallet.ownCid && CpLegWithdrawn(r.t3)
  {
    var r := k.Play();
    SecondStepGoesThrough(k);
    MeanwhileIsHonest(r.m0, r.m1, k.dm, r.t1, k.dt, r.t2.now);
    QuietRedeem(r, k);
    RoundTwoTaker(r, Turns(), k.dt, k.dm);
  }

  lemma QuietFourth(r: Rounds, k: Market)
    requires k.Ready() && Honest(r.m2, k.dm) && r.m2.pc.Idle? && r.m2.wallet.state.WaitingForSecret?
    requires OwnLegWithdrawn(r.m2) && r.m2.now == k.n[3]
    ensures FourthStepPlays(r, Turns(), k.dt, k.dm)
  {
    QuietStep(r.m2, k.dm);
    WithdrawnIsHeard(r.m2, QuietLook(), k.dm);
    QuietRereads(r.m2, k.dm);
  }

  lemma FourthStepGoesThrough(k: Market)
    requires k.Ready()
    ensures FourthStepPlays(k.Play(), Turns(), k.dt, k.dm)
  {
    var r := k.Play();
    SecondStepGoesThrough(k);
    ThirdStepGoesThrough(k);
    MeanwhileIsHonest(r.t2, r.t3, k.dt, r.m1, k.dm, r.m2.now);
    QuietFourth(r, k);
  }

  lemma AllStepsGoThrough(k: Market)
    requires k.Ready()
    ensures var (r, ts) := (k.Play(), Turns());
      && FirstStepPlays(r, ts, k.dt, k.dm) && SecondStepPlays(r, ts, k.dt, k.dm)
      && ThirdStepPlays(r, ts, k.dt, k.dm) && FourthStepPlays(r, ts, k.dt, k.dm)
  {
    FirstStepGoesThrough(k);
    SecondStepGoesThrough(k);
    ThirdStepGoesThrough(k);
    FourthStepGoesThrough(k);
  }

  /** From fresh contracts and funded accounts both legs end up paid to the other side. */
  lemma FundedSwapCompletes(k: Market)
    requires k.Ready()
    ensures var r := k.Play();
      && r.t3.wallet.state.CounterpartyRedeemed? && CpLegWithdrawn(r.t3) && CpLegPaid(r.t3, k.dt)
      && CpLegWithdrawn(r.m3) && CpLegPaid(r.m3, k.dm)
  {
    AllStepsGoThrough(k);
    HonestSwapCompletes(k.Taker(), k.Maker(), k.dt, k.dm, k.n, Turns());
  }

  /** Each wallet still looks at the chain it started with. */
  lemma StepStaysOnSite(s: Sys, t: Turn, deal: SwapContext)
    requires Honest(s, deal) && Proper(t)
    ensures var e := WholeStep(s, t); e.own.world.site == s.own.world.site && e.cp.world.site == s.cp.world.site
  {
    ChainsGoOn(s, t, deal);
    BrinkIsHonest(s, t, deal);
    if Brink(s, t).pc.Ready? {
      LandedOutlives(Brink(s, t), t.mined);
    }
  }

  lemma QuietStays(s: Sys, e: Sys, deal: SwapContext)
    requires Honest(s, deal) && e == WholeStep(s, QuietTurn())
    ensures e.own.world.site == s.own.world.site && e.cp.world.site == s.cp.world.site
  {
    QuietIsClueless(0);
    StepStaysOnSite(s, QuietTurn(), deal);
  }

  /** Neither chain becomes another one. */
  lemma ChainsStay(k: Market)
    requires k.Ready()
    ensures var r := k.Play();
      r.t3.cp.world.site == k.maker.world.site && r.m3.cp.world.site == k.taker.world.site
  {
    FirstChainStays(k);
    SecondChainStays(k);
    ThirdChainStays(k);
  }

  lemma FirstChainStays(k: Market)
    requires k.Ready()
    ensures k.Play().t1.own.world.site == k.taker.world.site
  {
    var r := k.Play();
    StartIsHonest(k.Taker(), k.dt);
    Completion.Waiting(k.Taker(), k.n[0], k.dt);
    QuietStays(r.t0, r.t1, k.dt);
  }

  lemma SecondChainStays(k: Market)
    requires k.Ready()
    ensures var r := k.Play();
      r.t3.cp.world.site == k.maker.world.site && r.t3.own.world.site == r.t1.own.world.site
  {
    var r := k.Play();
    SecondStepGoesThrough(k);
    MeanwhileIsHonest(r.m0, r.m1, k.dm, r.t1, k.dt, r.t2.now);
    QuietStays(r.t2, r.t3, k.dt);
  }

  lemma ThirdChainStays(k: Market)
    requires k.Ready()
    ensures k.Play().m3.cp.world.site == k.Play().t3.own.world.site
  {
    var r := k.Play();
    SecondStepGoesThrough(k);
    ThirdStepGoesThrough(k);
    MeanwhileIsHonest(r.t2, r.t3, k.dt, r.m1, k.dm, r.m2.now);
    QuietStays(r.m2, r.m3, k.dm);
  }

  // -------- from two orders --------

  /** A crossing order `a` and a resting order `b` that trade, on the chains they sell on, freshly deployed. */
  ghost predicate Tradable(a: Order, b: Order, matchedAt: U64, taker: Node, maker: Node) {
    Trades(a.terms, b.terms, matchedAt) && Precedes(b, a) && Placed(a, b, taker, maker)
  }

  ghost predicate Placed(a: Order, b: Order, taker: Node, maker: Node) {
    && a.terms.sellAmount > 0 && b.terms.sellAmount > 0
    && a.terms.sellChainId == taker.world.site.chainId && b.terms.sellChainId == maker.world.site.chainId
    && Deployed(taker) && Deployed(maker)
    && a.terms.maker != maker.world.site.htlc && b.terms.maker != taker.world.site.htlc
  }

  function TakerDeal(a: Order, b: Order, secret: Word, policy: TimelockPolicy, now: U64): SwapContext {
    DeriveContext(a, b, AssignRole(a, b), Some(SHA256(secret)), Some(secret), policy, now)
  }

  function MakerDeal(a: Order, b: Order, secret: Word, policy: TimelockPolicy, now: U64): SwapContext {
    DeriveContext(b, a, AssignRole(b, a), Some(SHA256(secret)), None, policy, now)
  }

  function MarketOf(
    a: Order, b: Order, secret: Word, policy: TimelockPolicy, now: U64,
    ct: Config, cm: Config, taker: Node, maker: Node, n: seq<U64>): Market
  {
    Market(TakerDeal(a, b, secret, policy, now), MakerDeal(a, b, secret, policy, now), ct, cm, taker, maker, n)
  }

  /**
   * Four steps in order, after the handshake at `now`: the taker redeems while the
   * maker's time is not up and the gap remains, the maker before the taker's is.
   */
  ghost predicate Scheduled(n: seq<U64>, policy: TimelockPolicy, now: U64) {
    && |n| == 4 && now <= n[0] <= n[1] <= n[2] <= n[3]
    && n[2] < now + policy.makerLockSecs && n[2] + policy.minGap <= now + policy.makerLockSecs
    && n[3] < now + policy.takerLockSecs
  }

  /** One payout under this lock: everything the terms sell, to `who`. */
  ghost predicate PaidOut(w: World, cid: Option<Word>, who: Address, sold: Terms) {
    cid.Some? &&
    var paid := PayoutsOf(w.payouts, cid.value);
    |paid| == 1 && paid[0] == Payout(cid.value, who, sold.sellToken, sold.sellAmount, paid[0].time)
  }

  /** What the order asked for: at least that much of that token, to its maker, on that chain. */
  ghost predicate Satisfied(w: World, cid: Option<Word>, order: Terms) {
    cid.Some? && w.site.chainId == order.buyChainId &&
    exists p :: p in PayoutsOf(w.payouts, cid.value) && p.to == order.maker && p.token == order.buyToken && p.amount >= order.buyAmount
  }

  lemma PaidOutSatisfies(w: World, cid: Option<Word>, order: Terms, sold: Terms)
    requires PaidOut(w, cid, order.maker, sold) && Fills(sold, order) && w.site.chainId == sold.sellChainId
    ensures Satisfied(w, cid, order)
  {
    var paid := PayoutsOf(w.payouts, cid.value);
    assert paid[0] in paid;
  }

  lemma DerivedMarketIsReady(
    a: Order, b: Order, matchedAt: U64, secret: Word, policy: TimelockPolicy, now: U64,
    ct: Config, cm: Config, taker: Node, maker: Node, n: seq<U64>)
    requires Tradable(a, b, matchedAt, taker, maker) && SoundPolicy(policy, now) && SHA256(secret) != 0 && Scheduled(n, policy, now)
    requires var k := MarketOf(a, b, secret, policy, now, ct, cm, taker, maker, n);
      Funded(taker.world, n[0], ct, k.dt) && Funded(maker.world, n[1], cm, k.dm)
    ensures MarketOf(a, b, secret, policy, now, ct, cm, taker, maker, n).Ready()
  {
    var k := MarketOf(a, b, secret, policy, now, ct, cm, taker, maker, n);
    RestingOrderMakes(b, a);
    DerivedContextsPair(a, b, secret, policy, now);
    DeploymentStarts(k.dt, k.dm, ct, cm, taker, maker);
  }

  /**
   * Two orders that trade, the later one the taker, freshly deployed contracts and
   * funded accounts, each locking straight into the HTLC or with its signed order
   * through Settlement: after two rounds each order's maker has been paid, exactly
   * once, the whole of what the other order sells, and so at least what it asked
   * for in the token and on the chain it named.
   */
  lemma MatchedOrdersSettle(
    a: Order, b: Order, matchedAt: U64, secret: Word, policy: TimelockPolicy, now: U64,
    ct: Config, cm: Config, taker: Node, maker: Node, n: seq<U64>)
    requires Tradable(a, b, matchedAt, taker, maker) && SoundPolicy(policy, now) && SHA256(secret) != 0 && Scheduled(n, policy, now)
    requires var k := MarketOf(a, b, secret, policy, now, ct, cm, taker, maker, n);
      Funded(taker.world, n[0], ct, k.dt) && Funded(maker.world, n[1], cm, k.dm)
    ensures var r := MarketOf(a, b, secret, policy, now, ct, cm, taker, maker, n).Play();
      && r.t3.wallet.state.CounterpartyRedeemed?
      && PaidOut(r.t3.cp.world, r.t3.wallet.cpCid, a.terms.maker, b.terms)
      && PaidOut(r.m3.cp.world, r.m3.wallet.cpCid, b.terms.maker, a.terms)
      && Satisfied(r.t3.cp.world, r.t3.wallet.cpCid, a.terms)
      && Satisfied(r.m3.cp.world, r.m3.wallet.cpCid, b.terms)
  {
    var k := MarketOf(a, b, secret, policy, now, ct, cm, taker, maker, n);
    DerivedMarketIsReady(a, b, matchedAt, secret, policy, now, ct, cm, taker, maker, n);
    FundedSwapCompletes(k);
    ChainsStay(k);
    PaidOutSatisfies(k.Play().t3.cp.world, k.Play().t3.wallet.cpCid, a.terms, b.terms);
    PaidOutSatisfies(k.Play().m3.cp.world, k.Play().m3.wallet.cpCid, b.terms, a.terms);
  }

  /** The crossing order of two, then the resting one. */
  ghost function Crossing(x: Order, y: Order): (Order, Order) {
    if Precedes(y, x) then (x, y) else (y, x)
  }

  /**
   * From the book to both makers paid. Any two orders of a book that `find_match`
   * pairs, or that are shown together, whichever came first, settle so: the later
   * one takes, and each maker gets at least what its order asked for.
   */
  lemma BookMatchSettles(
    orders: seq<Order>, hashes: seq<Word>, i: nat, j: nat, matchedAt: U64, secret: Word, policy: TimelockPolicy, now: U64,
    ct: Config, cm: Config, taker: Node, maker: Node, n: seq<U64>)
    requires Book.Sound(orders, hashes) && forall k :: 0 <= k < |orders| ==> Admitted(orders[k], hashes[k])
    requires i < |orders| && IsPartner(orders[i], orders, i, matchedAt, j)
    requires SoundPolicy(policy, now) && SHA256(secret) != 0 && Scheduled(n, policy, now)
    requires var (a, b) := Crossing(orders[i], orders[j]);
      var k := MarketOf(a, b, secret, policy, now, ct, cm, taker, maker, n);
      Placed(a, b, taker, maker) && Funded(taker.world, n[0], ct, k.dt) && Funded(maker.world, n[1], cm, k.dm)
    ensures var (a, b) := Crossing(orders[i], orders[j]);
      var r := MarketOf(a, b, secret, policy, now, ct, cm, taker, maker, n).Play();
      && Satisfied(r.t3.cp.world, r.t3.wallet.cpCid, a.terms)
      && Satisfied(r.m3.cp.world, r.m3.wallet.cpCid, b.terms)
  {
    var (a, b) := Crossing(orders[i], orders[j]);
    assert hashes[i] != hashes[j];
    assert Admitted(orders[i], hashes[i]) && Admitted(orders[j], hashes[j]);
    MatchedOrdersSettle(a, b, matchedAt, secret, policy, now, ct, cm, taker, maker, n);
  }
}
