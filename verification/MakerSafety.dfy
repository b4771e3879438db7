/** The maker locks second and never holds the secret. */
module MakerSafety {
  import opened Primitives
  import opened Ledger
  import opened LedgerInvariants
  import opened StateMachine
  import opened Executor
  import opened TxOutcomes
  import opened SwapSystem
  import opened WalletRuns
  import opened WalletTheorems

  /** A withdrawn counterparty leg paid this wallet the agreed sum, once, and nobody else. */
  ghost predicate CpLegPaid(s: Sys, deal: SwapContext)
    requires s.wallet.cpCid.Some?
  {
    var cid := s.wallet.cpCid.value;
    var paid := PayoutsOf(s.cp.world.payouts, cid);
    |paid| == 1 && paid[0] == Payout(cid, deal.me, deal.cpToken, deal.cpAmount, paid[0].time)
  }

  lemma WithdrawnIsPaid(s: Sys, deal: SwapContext)
    requires SysOk(s) && deal.hashlock.Some? && CpLegGood(s, deal) && CpLegWithdrawn(s)
    ensures CpLegPaid(s, deal)
  {
    assert PaidFor(s.cp.world, s.wallet.cpCid.value);
  }

  /** The taker's leg as the maker needs it: the agreed sum for the maker, on a timelock past the gap. */
  ghost predicate CoversMaker(s: Sys, deal: SwapContext)
    requires deal.hashlock.Some?
  {
    && s.wallet.cpCid.Some? && s.wallet.cpCid.value in s.cp.world.swaps
    && var r := s.cp.world.swaps[s.wallet.cpCid.value];
       && r.hashlock == deal.hashlock.value && r.recipient == deal.me
       && r.token == deal.cpToken && r.amount == deal.cpAmount
       && deal.myTimelock < r.timelock
       && (deal.myTimelock + deal.minGap <= U64_MAX ==> deal.myTimelock + deal.minGap <= r.timelock)
       && (s.now < r.timelock ==> !r.refunded)
  }

  lemma OneFlag(w: World, cid: Word)
    requires WorldInv(w) && cid in w.swaps
    ensures !(w.swaps[cid].withdrawn && w.swaps[cid].refunded)
  {
    assert SaneSwap(w, cid, w.swaps[cid]);
  }

  /**
   * Maker atomicity, the safety half, over all runs and against any taker:
   * whenever the maker's leg has been withdrawn, the secret is in that chain's
   * log, and the taker's leg covers the maker and cannot be refunded in time.
   */
  lemma MakerAtomicity(s: Sys, hs: seq<Happening>, deal: SwapContext)
    requires Starts(s, deal) && TruthfulRun(s, hs) && deal.role.Maker?
    ensures var e := Run(s, hs);
      OwnLegWithdrawn(e) ==>
        && !NoneOpened(e.own.world.log, deal.hashlock.value)
        && CoversMaker(e, deal)
        && (e.wallet.state.WaitingForSecret?
            || (e.wallet.state.CounterpartyRedeemed? && CpLegWithdrawn(e) && CpLegPaid(e, deal)))
  {
    var e := Run(s, hs);
    RunIsHonest(s, hs, deal);
    if OwnLegWithdrawn(e) {
      OneFlag(e.own.world, e.wallet.ownCid.value);
      WithdrawnIsOpened(e, deal);
      if CpLegWithdrawn(e) {
        WithdrawnIsPaid(e, deal);
      }
    }
  }

  // -------- a step with all its answers --------

  ghost predicate FullyAnswered(s: Sys, h: Happening) {
    h.Observe? && (s.wallet.ctx.hashlock.Some? ==> Answered(s.wallet, Seen(s, h)))
  }

  /** Where the second refresh starts. */
  ghost function Paused(s: Sys, t: Turn): Sys
    requires Proper(t)
  {
    MovedAll(ObservedSys(s, t.first), t.pause)
  }

  /** No read of the step fails. */
  ghost predicate ReadsAll(s: Sys, t: Turn) {
    Proper(t) && FullyAnswered(s, t.first) && FullyAnswered(Paused(s, t), t.second)
  }

  /** Where the broadcast lands; or where the step ends, if there is none. */
  ghost function Brink(s: Sys, t: Turn): Sys
    requires Proper(t)
  {
    var s2 := Rechecked(ObservedSys(s, t.first), t);
    if s2.pc.Ready? then MovedAll(s2, t.beforeSend) else s2
  }

  lemma BrinkIsHonest(s: Sys, t: Turn, deal: SwapContext)
    requires Honest(s, deal) && Proper(t)
    ensures Honest(Brink(s, t), deal)
    ensures var s2 := Rechecked(ObservedSys(s, t.first), t);
      && Honest(s2, deal) && Brink(s, t).wallet == s2.wallet && Brink(s, t).pc == s2.pc
      && WholeStep(s, t) == if s2.pc.Ready? then SentSys(Brink(s, t), t.mined, t.receipt) else Brink(s, t)
  {
    var s1 := ObservedSys(s, t.first);
    ObserveIsHonest(s, t.first, deal);
    RecheckedIsHonest(s1, t, deal);
    PausedIsHonest(Rechecked(s1, t), t.beforeSend, deal);
  }

  // -------- a maker that knows the secret --------

  /** A maker that has heard a secret goes for the taker's leg with it; if it planned with another one, it waits. */
  lemma HeardSecretIsUsed(s: Sys, was: Pc, entropy: Word, deal: SwapContext)
    requires Sound(s.wallet, deal) && deal.role.Maker? && s.wallet.state.WaitingForSecret?
    requires s.wallet.ctx.revealedSecret.Some? && s.wallet.cpCid.Some?
    ensures var (s1, secret) := (Decided(s, was, entropy), s.wallet.ctx.revealedSecret.value);
      && s1.wallet == s.wallet
      && (!was.Planned? ==> s1.pc == Planned(NextAction.RedeemCounterpartyLeg(secret)))
      && (was.Planned? ==>
            s1.pc == if was.action == NextAction.RedeemCounterpartyLeg(secret)
                     then Ready(RedeemTx(s.wallet.cpCid.value, secret)) else Idle)
  {}

  /** A refresh by a maker with a locked leg, the secret being out. */
  lemma MakerHears(s: Sys, h: Happening, deal: SwapContext)
    requires Honest(s, deal) && h.Observe? && deal.role.Maker? && s.wallet.state.WaitingForSecret?
    requires FullyAnswered(s, h) && Hears(s, h, deal.hashlock.value)
    ensures var w := RefreshedSys(s, h).wallet;
      && Sound(w, deal) && w.state.WaitingForSecret?
      && w.cpCid == s.wallet.cpCid && s.wallet.cpCid.Some?
      && w.ctx.revealedSecret.Some? && SHA256(w.ctx.revealedSecret.value) == deal.hashlock.value
  {
    RefreshedIsSound(s, h, deal);
    RefreshHearsSecret(s, h, deal.hashlock.value);
    RefreshKnows(s, h, deal.hashlock.value);
  }

  lemma HeardIsDecided(s: Sys, h: Happening, deal: SwapContext)
    requires Honest(s, deal) && h.Observe? && deal.role.Maker? && s.wallet.state.WaitingForSecret? && !s.pc.Ready?
    requires FullyAnswered(s, h) && Hears(s, h, deal.hashlock.value)
    ensures var (s1, secret) := (ObservedSys(s, h), RefreshedSys(s, h).wallet.ctx.revealedSecret);
      && s1.wallet == RefreshedSys(s, h).wallet && secret.Some?
      && (s.pc.Idle? ==> s1.pc == Planned(NextAction.RedeemCounterpartyLeg(secret.value)))
      && (s.pc.Planned? ==>
            s1.pc == if s.pc.action == NextAction.RedeemCounterpartyLeg(secret.value)
                     then Ready(RedeemTx(s.wallet.cpCid.value, secret.value)) else Idle)
  {
    MakerHears(s, h, deal);
    HeardSecretIsUsed(RefreshedSys(s, h), s.pc, h.entropy, deal);
  }

  lemma HeardStaysHeard(s: Sys, ms: seq<Move>, h: Happening, deal: SwapContext)
    requires Honest(s, deal) && h.Observe? && s.wallet.ctx.revealedSecret.Some?
    ensures Hears(MovedAll(s, ms), h, deal.hashlock.value)
  {
    PausedIsHonest(s, ms, deal);
  }

  /** The second refresh reads the very secret the step was planned with. */
  ghost predicate Rereads(s: Sys, t: Turn) {
    && Proper(t)
    && ObservedSys(s, t.first).wallet.ctx.revealedSecret.Some?
    && Paused(s, t).wallet.ctx.hashlock.Some?
    && RefreshedSys(Paused(s, t), t.second).wallet.ctx.revealedSecret
       == ObservedSys(s, t.first).wallet.ctx.revealedSecret
  }

  lemma HeardFirst(s: Sys, t: Turn, deal: SwapContext)
    requires Honest(s, deal) && deal.role.Maker? && s.wallet.state.WaitingForSecret? && s.pc.Idle?
    requires ReadsAll(s, t) && Hears(s, t.first, deal.hashlock.value)
    ensures var (s1, paused) := (ObservedSys(s, t.first), Paused(s, t));
      && Honest(s1, deal) && Honest(paused, deal)
      && s1.wallet.state.WaitingForSecret? && s1.wallet.ctx.revealedSecret.Some?
      && s1.pc == Planned(NextAction.RedeemCounterpartyLeg(s1.wallet.ctx.revealedSecret.value))
      && paused.wallet == s1.wallet && paused.pc == s1.pc && s1.wallet.cpCid == s.wallet.cpCid
      && Hears(paused, t.second, deal.hashlock.value)
  {
    HeardIsDecided(s, t.first, deal);
    MakerHears(s, t.first, deal);
    ObserveIsHonest(s, t.first, deal);
    PausedIsHonest(ObservedSys(s, t.first), t.pause, deal);
    HeardStaysHeard(ObservedSys(s, t.first), t.pause, t.second, deal);
  }

  /** With the secret out, a maker's step ends in a redeem if and only if its two refreshes read one secret. */
  lemma HeardStepRedeems(s: Sys, t: Turn, deal: SwapContext)
    requires Honest(s, deal) && deal.role.Maker? && s.wallet.state.WaitingForSecret? && s.pc.Idle?
    requires ReadsAll(s, t) && Hears(s, t.first, deal.hashlock.value)
    ensures var s2 := Rechecked(ObservedSys(s, t.first), t);
      && s2.wallet.state.WaitingForSecret? && s2.wallet.cpCid == s.wallet.cpCid && s.wallet.cpCid.Some?
      && if Rereads(s, t)
         then s2.pc == Ready(RedeemTx(s.wallet.cpCid.value, ObservedSys(s, t.first).wallet.ctx.revealedSecret.value))
         else s2.pc == Idle
  {
    HeardFirst(s, t, deal);
    HeardIsDecided(Paused(s, t), t.second, deal);
    MakerHears(Paused(s, t), t.second, deal);
  }

  /** SHA-256 shows no collision at `h`. */
  ghost predicate OnePreimage(h: Word) {
    forall p, q :: SHA256(p) == h && SHA256(q) == h ==> p == q
  }

  /** One preimage for the hashlock is enough for that. */
  lemma OnePreimageRereads(s: Sys, t: Turn, deal: SwapContext)
    requires Honest(s, deal) && deal.role.Maker? && s.wallet.state.WaitingForSecret? && s.pc.Idle?
    requires ReadsAll(s, t) && Hears(s, t.first, deal.hashlock.value) && OnePreimage(deal.hashlock.value)
    ensures Rereads(s, t)
  {
    HeardFirst(s, t, deal);
    MakerHears(Paused(s, t), t.second, deal);
  }

  // -------- what a redeem brings in --------

  /** A redeem mined before the lock's timelock leaves it withdrawn, whoever else tried first; later it changes nothing. */
  lemma RedeemCollectsInTime(s: Sys, deal: SwapContext)
    requires Honest(s, deal) && s.pc.Ready? && s.pc.tx.RedeemTx?
    requires CpLegGood(s, deal) && deal.me != s.cp.world.site.htlc
    ensures var timelock := s.cp.world.swaps[s.wallet.cpCid.value].timelock;
      && CpLegGood(Landed(s, true), deal)
      && (CpLegWithdrawn(Landed(s, true)) <==> CpLegWithdrawn(s) || s.now < timelock)
      && (Succeeds(s, true) <==> !CpLegWithdrawn(s) && s.now < timelock)
  {
    LandedOutlives(s, true);
    CpLegOutlives(s, Landed(s, true), deal);
    var cid := s.pc.tx.contractId;
    assert SwapGrew(s.cp.world.swaps[cid], Landed(s, true).cp.world.swaps[cid], s.now);
    if s.now < s.cp.world.swaps[cid].timelock {
      RedeemSucceeds(s.cp.world, s.now, cid, s.pc.tx.secret);
    }
    if Succeeds(s, true) {
      RedeemMeans(s.cp.world, s.now, cid, s.pc.tx.secret, TAKES);
    }
  }

  lemma ToldKeepsChains(s: Sys, tx: TxRequest, receipt: bool, tookEffect: bool)
    ensures var e := Told(s, tx, receipt, tookEffect);
      e.wallet.cpCid == s.wallet.cpCid && e.cp == s.cp && e.own == s.own && e.now == s.now
  {}

  lemma TimelyRedeemPays(s: Sys, receipt: bool, deal: SwapContext)
    requires Honest(s, deal) && s.pc.Ready? && s.pc.tx.RedeemTx?
    requires CpLegGood(s, deal) && deal.me != s.cp.world.site.htlc
    requires s.now < s.cp.world.swaps[s.wallet.cpCid.value].timelock
    ensures var e := SentSys(s, true, receipt);
      && e.wallet.cpCid == s.wallet.cpCid
      && CpLegGood(e, deal) && CpLegWithdrawn(e) && CpLegPaid(e, deal)
  {
    LandedOutlives(s, true);
    RedeemCollectsInTime(s, deal);
    WithdrawnIsPaid(Landed(s, true), deal);
    ToldKeepsChains(Landed(s, true), s.pc.tx, receipt, Succeeds(s, true));
  }

  lemma MakerLockIsCovered(s: Sys, deal: SwapContext)
    requires Honest(s, deal) && s.wallet.state.WaitingForSecret? && deal.role.Maker?
    ensures CpLegGood(s, deal)
  {}

  /** The moment the step's transaction is mined. */
  ghost function SendTime(s: Sys, t: Turn): U64
    requires Proper(t)
  {
    Brink(s, t).now
  }

  /**
   * The liveness half: once the secret is out, one whole maker step whose two
   * refreshes read one secret, and which is mined before the taker leg's
   * timelock, leaves that leg withdrawn and paid to the maker, whatever happens
   * between its parts and whatever the network reports.
   */
  lemma MakerCollects(s: Sys, t: Turn, deal: SwapContext)
    requires Honest(s, deal) && deal.role.Maker? && s.wallet.state.WaitingForSecret? && s.pc.Idle?
    requires ReadsAll(s, t) && Hears(s, t.first, deal.hashlock.value) && Rereads(s, t)
    requires t.mined && deal.me != s.cp.world.site.htlc
    requires s.wallet.cpCid.Some? && s.wallet.cpCid.value in s.cp.world.swaps
    requires SendTime(s, t) < s.cp.world.swaps[s.wallet.cpCid.value].timelock
    ensures var e := WholeStep(s, t);
      && e.wallet.cpCid == s.wallet.cpCid
      && CpLegGood(e, deal) && CpLegWithdrawn(e) && CpLegPaid(e, deal)
  {
    HeardStepRedeems(s, t, deal);
    BrinkIsHonest(s, t, deal);
    ChainsGoOn(s, t, deal);
    MakerLockIsCovered(Brink(s, t), deal);
    TimelyRedeemPays(Brink(s, t), t.receipt, deal);
  }

  /** With one preimage for the hashlock the refreshes cannot differ. */
  lemma MakerCollectsOnePreimage(s: Sys, t: Turn, deal: SwapContext)
    requires Honest(s, deal) && deal.role.Maker? && s.wallet.state.WaitingForSecret? && s.pc.Idle?
    requires ReadsAll(s, t) && Hears(s, t.first, deal.hashlock.value) && OnePreimage(deal.hashlock.value)
    requires t.mined && deal.me != s.cp.world.site.htlc
    requires s.wallet.cpCid.Some? && s.wallet.cpCid.value in s.cp.world.swaps
    requires SendTime(s, t) < s.cp.world.swaps[s.wallet.cpCid.value].timelock
    ensures CpLegWithdrawn(WholeStep(s, t)) && CpLegPaid(WholeStep(s, t), deal)
  {
    OnePreimageRereads(s, t, deal);
    MakerCollects(s, t, deal);
  }

  // -------- the chains through a step --------

  lemma ObservedChainsAre(s: Sys, h: Happening)
    requires h.Observe?
    ensures ObservedSys(s, h).cp == Instants(s, h).2.cp && ObservedSys(s, h).own == Instants(s, h).2.own
    ensures ObservedSys(s, h).now == Instants(s, h).2.now && ObservedSys(s, h).cfg == Instants(s, h).2.cfg
    ensures ObservedSys(s, h).shown == Instants(s, h).2.shown && ObservedSys(s, h).done == Instants(s, h).2.done
  {}

  /** Both chains only moved forward from `s` to `s1`. */
  ghost predicate Onward(s: Sys, s1: Sys) {
    NodeGrew(s.own, s1.own, s.now) && NodeGrew(s.cp, s1.cp, s.now) && s.now <= s1.now
  }

  lemma OnwardTransitive(s: Sys, s1: Sys, s2: Sys)
    requires Onward(s, s1) && Onward(s1, s2)
    ensures Onward(s, s2)
  {
    GrewTransitive(s.own.world, s1.own.world, s2.own.world, s.now, s1.now);
    GrewTransitive(s.cp.world, s1.cp.world, s2.cp.world, s.now, s1.now);
  }

  lemma ObservedOnward(s: Sys, h: Happening)
    requires SysOk(s) && h.Observe?
    ensures Onward(s, ObservedSys(s, h))
  {
    ObservedChainsAre(s, h);
    InstantsOutlive(s, h);
  }

  lemma PausedOnward(s: Sys, ms: seq<Move>)
    requires SysOk(s)
    ensures Onward(s, MovedAll(s, ms))
  {
    MovesOutlived(s, ms);
  }

  lemma RecheckedOnward(s1: Sys, t: Turn, deal: SwapContext)
    requires Honest(s1, deal) && Proper(t)
    ensures Onward(s1, Rechecked(s1, t))
  {
    NodeItself(s1.own, s1.now);
    NodeItself(s1.cp, s1.now);
    if s1.pc.Planned? {
      var paused := MovedAll(s1, t.pause);
      PausedIsHonest(s1, t.pause, deal);
      PausedOnward(s1, t.pause);
      ObservedOnward(paused, t.second);
      OnwardTransitive(s1, paused, Rechecked(s1, t));
    }
  }

  lemma BrinkOnward(s: Sys, t: Turn, deal: SwapContext)
    requires Honest(s, deal) && Proper(t)
    ensures Onward(s, Brink(s, t))
  {
    var s1 := ObservedSys(s, t.first);
    var s2 := Rechecked(s1, t);
    ObserveIsHonest(s, t.first, deal);
    ObservedOnward(s, t.first);
    RecheckedOnward(s1, t, deal);
    OnwardTransitive(s, s1, s2);
    if s2.pc.Ready? {
      RecheckedIsHonest(s1, t, deal);
      PausedOnward(s2, t.beforeSend);
      OnwardTransitive(s, s2, Brink(s, t));
    }
  }

  /** Up to the broadcast the counterparty's lock keeps its terms. */
  lemma ChainsGoOn(s: Sys, t: Turn, deal: SwapContext)
    requires Honest(s, deal) && Proper(t)
    ensures var e := Brink(s, t);
      && e.cp.world.site == s.cp.world.site && e.own.world.site == s.own.world.site
      && forall cid :: cid in s.cp.world.swaps ==>
           cid in e.cp.world.swaps && e.cp.world.swaps[cid].timelock == s.cp.world.swaps[cid].timelock
  {
    BrinkOnward(s, t, deal);
    var e := Brink(s, t);
    forall cid | cid in s.cp.world.swaps
      ensures cid in e.cp.world.swaps && e.cp.world.swaps[cid].timelock == s.cp.world.swaps[cid].timelock
    {
      assert SwapGrew(s.cp.world.swaps[cid], e.cp.world.swaps[cid], s.now);
    }
  }

  // -------- an expired leg --------

  /**
   * Past its own timelock a wallet with a locked leg refunds it in the very next
   * step, whatever the world does during that step; except that a maker that
   * knows the secret redeems the other leg instead, or waits if its two refreshes
   * read two different secrets.
   */
  lemma ExpiredStepBroadcasts(s: Sys, t: Turn, deal: SwapContext)
    requires Honest(s, deal) && s.pc.Idle? && ReadsAll(s, t)
    requires s.wallet.state == LockedState(deal.role) && deal.myTimelock <= s.now
    ensures var (s2, heard) := (Rechecked(ObservedSys(s, t.first), t), Hears(s, t.first, deal.hashlock.value));
      && (deal.role.Taker? || !heard ==> s.wallet.ownCid.Some? && s2.pc == Ready(RefundTx(s.wallet.ownCid.value)))
      && (deal.role.Maker? && heard ==>
            if Rereads(s, t) then s2.pc.Ready? && s2.pc.tx.RedeemTx? && Some(s2.pc.tx.contractId) == s.wallet.cpCid
            else s2.pc == Idle)
  {
    ExpiredLegIsActedOn(s, t.first, deal);
    if deal.role.Maker? && Hears(s, t.first, deal.hashlock.value) {
      HeardStepRedeems(s, t, deal);
    }
  }

  /** The wallet has one of the two legs back: its own refunded, or the other withdrawn to it. */
  ghost predicate MadeWhole(s: Sys) { OwnLegRefunded(s) || CpLegWithdrawn(s) }

  lemma RefundedBrink(s: Sys, receipt: bool, deal: SwapContext)
    requires Honest(s, deal) && deal.role.Maker? && s.pc.Ready? && s.pc.tx.RefundTx?
    requires s.own.world.site.External(s.cfg.account)
    ensures MadeWhole(SentSys(s, true, receipt))
  {
    RefundAttemptWorks(s, deal);
  }

  lemma RedeemedBrink(s: Sys, receipt: bool, deal: SwapContext)
    requires Honest(s, deal) && deal.role.Maker? && s.pc.Ready? && s.pc.tx.RedeemTx?
    requires CpLegGood(s, deal) && deal.me != s.cp.world.site.htlc
    ensures MadeWhole(SentSys(s, true, receipt)) <==>
      MadeWhole(s) || s.now < s.cp.world.swaps[s.wallet.cpCid.value].timelock
  {
    RedeemCollectsInTime(s, deal);
    ToldRedeemKeepsOwn(Landed(s, true), s.pc.tx, receipt, Succeeds(s, true));
    assert OwnLegRefunded(Landed(s, true)) == OwnLegRefunded(s);
  }

  lemma ToldRedeemKeepsOwn(s: Sys, tx: TxRequest, receipt: bool, tookEffect: bool)
    requires tx.RedeemTx?
    ensures MadeWhole(Told(s, tx, receipt, tookEffect)) == MadeWhole(s)
  {}

  /**
   * Exactly when an expired maker leg is made good. After one whole step that is
   * mined, the maker has its own leg back or the taker's leg withdrawn to it if
   * and only if others had already seen to that, or the secret was not out, or
   * it was, both refreshes read it, and the taker's leg had not yet expired.
   */
  lemma ExpiredLegMadeGood(s: Sys, t: Turn, deal: SwapContext)
    requires Honest(s, deal) && deal.role.Maker? && s.pc.Idle? && ReadsAll(s, t) && t.mined
    requires s.wallet.state.WaitingForSecret? && deal.myTimelock <= s.now
    requires s.own.world.site.External(s.cfg.account) && deal.me != s.cp.world.site.htlc
    requires s.wallet.cpCid.Some? && s.wallet.cpCid.value in s.cp.world.swaps
    ensures MadeWhole(WholeStep(s, t)) <==>
      || MadeWhole(Brink(s, t))
      || !Hears(s, t.first, deal.hashlock.value)
      || (Rereads(s, t) && SendTime(s, t) < s.cp.world.swaps[s.wallet.cpCid.value].timelock)
  {
    ExpiredStepBroadcasts(s, t, deal);
    BrinkIsHonest(s, t, deal);
    ChainsGoOn(s, t, deal);
    SendKeepsAccount(s, t, deal);
    var b := Brink(s, t);
    if !Hears(s, t.first, deal.hashlock.value) {
      RefundedBrink(b, t.receipt, deal);
    } else if Rereads(s, t) {
      HeardStepRedeems(s, t, deal);
      MakerLockIsCovered(b, deal);
      RedeemedBrink(b, t.receipt, deal);
    }
  }

  lemma SendKeepsAccount(s: Sys, t: Turn, deal: SwapContext)
    requires Honest(s, deal) && Proper(t)
    ensures Brink(s, t).cfg == s.cfg
  {
    var s1 := ObservedSys(s, t.first);
    ObserveIsHonest(s, t.first, deal);
    ObserveKeepsAccount(s, t.first);
    PausedIsHonest(s1, t.pause, deal);
    ObserveKeepsAccount(MovedAll(s1, t.pause), t.second);
    RecheckedIsHonest(s1, t, deal);
    PausedIsHonest(Rechecked(s1, t), t.beforeSend, deal);
  }

  lemma ObserveKeepsAccount(s: Sys, h: Happening)
    requires h.Observe? && SysOk(s)
    ensures ObservedSys(s, h).cfg == s.cfg
  {
    ObservedChainsAre(s, h);
    InstantsOutlive(s, h);
  }
}
