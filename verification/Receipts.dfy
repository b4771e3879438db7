/**
 * The executor waits for a receipt and does not look at its status. What it
 * then believes is right exactly when the network told the truth; this is what
 * it gets wrong otherwise.
 */
module Receipts {
  import opened Primitives
  import opened Ledger
  import opened LedgerInvariants
  import opened StateMachine
  import opened Executor
  import opened TxOutcomes
  import opened SwapSystem
  import opened WalletRuns
  import opened WalletTheorems

  function IdOf(s: Sys, tx: TxRequest): Word {
    if tx.LockTx? then OwnId(s.cfg, s.own.world.site, tx) else tx.contractId
  }

  /** A receipt moves the wallet on, its absence leaves it where it was. */
  lemma ReceiptMovesOn(s: Sys, mined: bool, receipt: bool, deal: SwapContext)
    requires Honest(s, deal) && s.pc.Ready?
    ensures var (w, tx) := (SentSys(s, mined, receipt).wallet, s.pc.tx);
      if !receipt then w == s.wallet
      else
        && w.state != s.wallet.state
        && w.state == (if tx.LockTx? then LockedState(deal.role) else if tx.RedeemTx? then CounterpartyRedeemed else Refunded)
        && (tx.LockTx? ==> w.ownCid == Some(IdOf(Landed(s, mined), tx)))
  {
    ReadyState(s, deal);
    Completes(s.wallet, s.pc.tx, IdOf(Landed(s, mined), s.pc.tx), deal.role);
  }

  /** What the wallet makes of a transaction is what it should, if and only if it was told the truth. */
  lemma AnswersAgree(s: Sys, mined: bool, receipt: bool, deal: SwapContext)
    requires Honest(s, deal) && s.pc.Ready?
    ensures SentSys(s, mined, receipt) == SentSys(s, mined, Succeeds(s, mined)) <==> receipt == Succeeds(s, mined)
  {
    ReceiptMovesOn(s, mined, true, deal);
    ReceiptMovesOn(s, mined, false, deal);
  }

  /** For a transaction that is mined and whose receipt arrives: if and only if the call did not revert. */
  lemma ReceiptIsRightIffCallIsOk(s: Sys, deal: SwapContext)
    requires Honest(s, deal) && s.pc.Ready?
    ensures SentSys(s, true, true) == SentSys(s, true, Succeeds(s, true))
      <==> Exec(Target(s).world, s.now, CallOf(s.cfg, s.pc.tx)).Ok?
  {
    AnswersAgree(s, true, true, deal);
  }

  /** The executor's invariant survives a broadcast if and only if the answer is true. */
  lemma HonestIffTruthful(s: Sys, mined: bool, receipt: bool, deal: SwapContext)
    requires Honest(s, deal) && s.pc.Ready?
    ensures Honest(SentSys(s, mined, receipt), deal) <==> receipt == Succeeds(s, mined)
  {
    SendIsHonest(s, mined, deal);
    if receipt != Succeeds(s, mined) {
      FalseAnswerShows(s, mined, receipt, deal);
    }
  }

  lemma FalseAnswerShows(s: Sys, mined: bool, receipt: bool, deal: SwapContext)
    requires Honest(s, deal) && s.pc.Ready? && receipt != Succeeds(s, mined)
    ensures !Staged(SentSys(s, mined, receipt), deal)
  {
    ReceiptMovesOn(s, mined, receipt, deal);
    ReadyState(s, deal);
    StagesTold(s, deal);
    var e := SentSys(s, mined, receipt);
    if Staged(e, deal) {
      StagesTold(e, deal);
    }
  }

  // -------- a reverted transaction taken for a success --------

  /** The wallet thinks its redeem or refund went through, and never tries anything again. */
  lemma RevertedIsFinal(s: Sys, hs: seq<Happening>, deal: SwapContext)
    requires Honest(s, deal) && s.pc.Ready? && !s.pc.tx.LockTx? && !Succeeds(s, true)
    ensures var e := Run(SentSys(s, true, true), hs);
      && e.done == s.done == [LockRequest(deal)]
      && e.wallet.state == (if s.pc.tx.RedeemTx? then CounterpartyRedeemed else Refunded)
  {
    ReceiptMovesOn(s, true, true, deal);
    ReadyState(s, deal);
    StagesTold(s, deal);
    ToldKeepsDeal(s, true, true, deal);
    RunStaysThrough(SentSys(s, true, true), hs);
  }

  lemma ToldKeepsDeal(s: Sys, mined: bool, receipt: bool, deal: SwapContext)
    requires Honest(s, deal) && s.pc.Ready?
    ensures SameDeal(SentSys(s, mined, receipt).wallet.ctx, deal) && SentSys(s, mined, receipt).pc == Idle
  {}

  /** And the revert itself brought nothing: the lock it was about is as it was. */
  lemma RevertedBringsNothing(s: Sys)
    requires s.pc.Ready? && !Succeeds(s, true)
    ensures SentSys(s, true, true).own.world == s.own.world && SentSys(s, true, true).cp.world == s.cp.world
  {}

  // -------- a lock that landed unheard --------

  /** A wallet that has not locked, as far as it knows. */
  ghost predicate Unlocked(w: Wallet, deal: SwapContext) {
    && Sound(w, deal) && w.ownCid == None
    && (w.state == StartState(deal.role) || (w.state.Aborted? && deal.role.Maker?))
  }

  /** The lock is stored, the wallet does not know, and the only thing it might send is that lock again. */
  ghost predicate Orphaned(s: Sys, deal: SwapContext) {
    && Unlocked(s.wallet, deal) && WalletOk(s, deal.hashlock.value)
    && IdOf(s, LockRequest(deal)) in s.own.world.swaps
    && (s.pc.Ready? ==> s.pc.tx == LockRequest(deal))
  }

  lemma UnheardLockIsOrphaned(s: Sys, deal: SwapContext)
    requires Honest(s, deal) && s.pc.Ready? && s.pc.tx.LockTx? && Succeeds(s, true)
    ensures Orphaned(SentSys(s, true, false), deal)
    ensures SentSys(s, true, false).done == [LockRequest(deal)]
  {
    LandedOutlives(s, true);
    HonestOutlives(s, Landed(s, true), deal);
    HonestIsSound(Landed(s, true), deal);
    LockLands(s, deal);
    ReadyState(s, deal);
    StagesTold(s, deal);
    UntoldIsOrphaned(Landed(s, true), deal);
  }

  /** Without a receipt the wallet is as before, whatever the chains now hold. */
  lemma UntoldIsOrphaned(s: Sys, deal: SwapContext)
    requires Unlocked(s.wallet, deal) && WalletOk(s, deal.hashlock.value) && s.pc == Ready(LockRequest(deal))
    requires IdOf(s, LockRequest(deal)) in s.own.world.swaps
    ensures forall tookEffect :: Orphaned(Told(s, s.pc.tx, false, tookEffect), deal)
  {
    ProgressKeepsKnowledge(s, Told(s, s.pc.tx, false, false), deal.hashlock.value);
    ProgressKeepsKnowledge(s, Told(s, s.pc.tx, false, true), deal.hashlock.value);
  }

  lemma RelockFails(w: World, now: U64, cfg: Config, deal: SwapContext)
    requires WorldInv(w) && deal.hashlock.Some?
    requires OwnId(cfg, w.site, LockRequest(deal)) in w.swaps
    ensures Exec(w, now, CallOf(cfg, LockRequest(deal))).Err?
  {
    if Exec(w, now, CallOf(cfg, LockRequest(deal))).Ok? {
      LockStores(w, now, CallOf(cfg, LockRequest(deal)));
    }
  }

  lemma OrphanOutlives(s: Sys, s1: Sys, deal: SwapContext)
    requires Orphaned(s, deal) && Outlived(s, s1) && SysOk(s1)
    ensures Orphaned(s1, deal)
  {
    MovesKeepKnowledge(s, s1, deal.hashlock.value);
  }

  lemma UnlockedDecides(s: Sys, was: Pc, entropy: Word, deal: SwapContext)
    requires Unlocked(s.wallet, deal)
    ensures var e := Decided(s, was, entropy);
      && Unlocked(e.wallet, deal) && e.wallet == s.wallet.(state := e.wallet.state)
      && (e.pc.Ready? ==> e.pc.tx == LockRequest(deal))
      && e.own == s.own && e.cp == s.cp && e.now == s.now && e.cfg == s.cfg && e.done == s.done
  {
    PlanOutcome(s.wallet, deal, entropy);
    if was.Planned? {
      ConfirmOutcome(s.wallet, deal, was.action);
    }
  }

  lemma UnlockedRefreshes(w: Wallet, v: View, deal: SwapContext)
    requires Unlocked(w, deal)
    requires var secret := Refreshed(w, v).ctx.revealedSecret;
      secret.Some? ==> SHA256(secret.value) == deal.hashlock.value
    ensures Unlocked(Refreshed(w, v), deal)
  {}

  lemma OrphanDecides(s: Sys, was: Pc, entropy: Word, deal: SwapContext)
    requires Orphaned(s, deal)
    ensures Orphaned(Decided(s, was, entropy), deal)
  {
    UnlockedDecides(s, was, entropy, deal);
    ProgressKeepsKnowledge(s, Decided(s, was, entropy), deal.hashlock.value);
  }

  lemma OrphanRefreshes(s: Sys, h: Happening, deal: SwapContext)
    requires Orphaned(s, deal) && h.Observe?
    ensures Orphaned(RefreshedSys(s, h), deal)
  {
    InstantsOutlive(s, h);
    OrphanOutlives(s, Instants(s, h).2, deal);
    RefreshKnows(s, h, deal.hashlock.value);
    UnlockedRefreshes(s.wallet, Seen(s, h), deal);
  }

  lemma OrphanObserves(s: Sys, h: Happening, deal: SwapContext)
    requires Orphaned(s, deal) && h.Observe?
    ensures Orphaned(ObservedSys(s, h), deal) && ObservedSys(s, h).done == s.done
  {
    if s.pc.Ready? {
      InstantsOutlive(s, h);
      OrphanOutlives(s, Instants(s, h).2, deal);
    } else {
      OrphanRefreshes(s, h, deal);
      RefreshKeepsProgress(s, h);
      OrphanDecides(RefreshedSys(s, h), s.pc, h.entropy, deal);
      UnlockedDecides(RefreshedSys(s, h), s.pc, h.entropy, deal);
    }
  }

  lemma OrphanSends(s: Sys, mined: bool, deal: SwapContext)
    requires Orphaned(s, deal) && s.pc.Ready?
    ensures !Succeeds(s, mined)
    ensures Orphaned(SentSys(s, mined, false), deal) && SentSys(s, mined, false).done == s.done
  {
    RelockFails(s.own.world, s.now, s.cfg, deal);
    LandedOutlives(s, mined);
    OrphanOutlives(s, Landed(s, mined), deal);
    UntoldIsOrphaned(Landed(s, mined), deal);
  }

  /** Even if it is told the truth from then on, the wallet never gets to its own leg again. */
  lemma {:induction false} OrphanStaysOrphaned(s: Sys, hs: seq<Happening>, deal: SwapContext)
    requires Orphaned(s, deal) && TruthfulRun(s, hs)
    ensures Orphaned(Run(s, hs), deal) && Run(s, hs).done == s.done
    decreases |hs|
  {
    if hs != [] {
      var n := |hs| - 1;
      OrphanStaysOrphaned(s, hs[..n], deal);
      OrphanGoesOn(Run(s, hs[..n]), hs[n], deal);
    }
  }

  lemma OrphanGoesOn(s: Sys, h: Happening, deal: SwapContext)
    requires Orphaned(s, deal) && Truthful(s, h)
    ensures Orphaned(Next(s, h), deal) && Next(s, h).done == s.done
  {
    match h
    case Outside(m) =>
      MoveOutlived(s, m);
      OrphanOutlives(s, Moved(s, m), deal);
    case Observe(_, _, _, _, _) => OrphanObserves(s, h, deal);
    case Send(mined, _) =>
      if s.pc.Ready? { OrphanSends(s, mined, deal); }
  }
}
