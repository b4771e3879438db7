/** The taker locks first and holds the secret until it redeems. */
module TakerSafety {
  import opened Primitives
  import opened Ledger
  import opened LedgerInvariants
  import opened LedgerTheorems
  import opened Observer
  import opened StateMachine
  import opened Executor
  import opened SwapSystem
  import opened WalletRuns
  import opened WalletTheorems
  import opened MakerSafety

  // -------- who can know the secret --------

  /** The wallet has shown the secret to nobody, and neither log opens the hashlock. */
  ghost predicate Hidden(s: Sys, hash: Word) {
    && s.shown == {}
    && NoneOpened(s.own.world.log, hash)
    && NoneOpened(s.cp.world.log, hash)
  }

  /** The move opens nothing under `hash`: nobody else has a preimage. */
  ghost predicate Clueless(m: Move, hash: Word) {
    match m
    case Tick(_) => true
    case MineOwn(c) => TreeUsesKnown(c, hash, {})
    case MineCp(c) => TreeUsesKnown(c, hash, {})
  }

  ghost predicate AllClueless(ms: seq<Move>, hash: Word) {
    forall i :: 0 <= i < |ms| ==> Clueless(ms[i], hash)
  }

  /** Nobody guesses a preimage that has not been shown: as long as it is hidden, moves are clueless. */
  ghost predicate Secretive(s: Sys, h: Happening, hash: Word) {
    Hidden(s, hash) ==>
      match h
      case Outside(m) => Clueless(m, hash)
      case Observe(a, b, c, _, _) => AllClueless(a, hash) && AllClueless(b, hash) && AllClueless(c, hash)
      case Send(_, _) => true
  }

  /** A redeem is mined, and while the lock it opens cannot yet be refunded. */
  ghost predicate Timely(s: Sys, h: Happening) {
    h.Send? && s.pc.Ready? && s.pc.tx.RedeemTx? ==>
      && h.mined
      && s.pc.tx.contractId in s.cp.world.swaps
      && s.now < s.cp.world.swaps[s.pc.tx.contractId].timelock
  }

  ghost predicate TimelyRun(s: Sys, hs: seq<Happening>, hash: Word)
    decreases |hs|
  {
    hs != [] ==>
      var n := |hs| - 1;
      && TimelyRun(s, hs[..n], hash)
      && Secretive(Run(s, hs[..n]), hs[n], hash)
      && Timely(Run(s, hs[..n]), hs[n])
  }

  /** What a wallet can see to itself: a redeem is mined strictly within the gap of its last verification. */
  ghost predicate Prompt(s: Sys, h: Happening) {
    h.Send? && s.pc.Ready? && s.pc.tx.RedeemTx? ==> h.mined && s.now < s.wallet.ctx.now + s.wallet.ctx.minGap
  }

  ghost predicate PromptRun(s: Sys, hs: seq<Happening>, hash: Word)
    decreases |hs|
  {
    hs != [] ==>
      var n := |hs| - 1;
      && PromptRun(s, hs[..n], hash)
      && Secretive(Run(s, hs[..n]), hs[n], hash)
      && Prompt(Run(s, hs[..n]), hs[n])
  }

  /** The gap the gate insists on is what makes a prompt redeem timely, saturation or not. */
  lemma {:induction false} PromptIsTimely(s: Sys, hs: seq<Happening>, deal: SwapContext)
    requires Starts(s, deal) && TruthfulRun(s, hs) && deal.role.Taker? && PromptRun(s, hs, deal.hashlock.value)
    ensures TimelyRun(s, hs, deal.hashlock.value)
    decreases |hs|
  {
    if hs != [] {
      var n := |hs| - 1;
      PromptIsTimely(s, hs[..n], deal);
      RunIsHonest(s, hs[..n], deal);
      PromptSendIsTimely(Run(s, hs[..n]), hs[n], deal);
    }
  }

  lemma PromptSendIsTimely(s: Sys, h: Happening, deal: SwapContext)
    requires Honest(s, deal) && deal.role.Taker? && Prompt(s, h)
    ensures Timely(s, h)
  {
    if h.Send? && s.pc.Ready? && s.pc.tx.RedeemTx? {
      ReadyLegIsGood(s, deal);
    }
  }

  // -------- it stays hidden until the redeem --------

  lemma MineStaysShut(n: Node, now: U64, c: Call, hash: Word)
    requires WorldInv(n.world) && TreeUsesKnown(c, hash, {}) && NoneOpened(n.world.log, hash)
    ensures NoneOpened(Mine(n, now, c).world.log, hash)
  {
    var w, w1 := n.world, After(n.world, now, c);
    ExecPublishesKnown(w, now, c, hash, {});
    ExecEvolves(w, now, c);
    forall i | 0 <= i < |w1.log| && w1.log[i].LogRedeem? ensures SHA256(w1.log[i].preimage) != hash {
      if i < |w.log| {
        assert w1.log[i] == w.log[i];
      } else {
        assert EventKnown(w1.log[i], hash, {});
      }
    }
  }

  lemma MoveStaysHidden(s: Sys, m: Move, hash: Word)
    requires SysOk(s) && Hidden(s, hash) && Clueless(m, hash)
    ensures Hidden(Moved(s, m), hash)
  {
    match m
    case Tick(_) =>
    case MineOwn(c) => MineStaysShut(s.own, s.now, c, hash);
    case MineCp(c) => MineStaysShut(s.cp, s.now, c, hash);
  }

  lemma {:induction false} MovesStayHidden(s: Sys, ms: seq<Move>, hash: Word)
    requires SysOk(s) && Hidden(s, hash) && AllClueless(ms, hash)
    ensures Hidden(MovedAll(s, ms), hash)
    decreases |ms|
  {
    if ms != [] {
      MoveStaysHidden(s, ms[0], hash);
      MoveOutlived(s, ms[0]);
      forall i | 0 <= i < |ms[1..]| ensures Clueless(ms[1..][i], hash) {
        assert ms[1..][i] == ms[i + 1];
      }
      MovesStayHidden(Moved(s, ms[0]), ms[1..], hash);
    }
  }

  lemma ObserveStaysHidden(s: Sys, h: Happening, hash: Word)
    requires SysOk(s) && h.Observe? && Hidden(s, hash) && Secretive(s, h, hash)
    ensures Hidden(ObservedSys(s, h), hash)
  {
    var (s1, s2, s3) := Instants(s, h);
    InstantsOutlive(s, h);
    MovesStayHidden(s, h.beforePoll, hash);
    MovesStayHidden(s1, h.beforeRead, hash);
    MovesStayHidden(s2, h.beforeOwn, hash);
    ObservedChainsAre(s, h);
  }

  lemma OwnCallIsClueless(cfg: Config, tx: TxRequest, hash: Word)
    requires !tx.RedeemTx?
    ensures TreeUsesKnown(CallOf(cfg, tx), hash, {})
  {}

  lemma SendStaysHidden(s: Sys, mined: bool, receipt: bool, hash: Word)
    requires SysOk(s) && Hidden(s, hash)
    requires s.pc.Ready? ==> !s.pc.tx.RedeemTx?
    ensures Hidden(SentSys(s, mined, receipt), hash)
  {
    if s.pc.Ready? {
      OwnCallIsClueless(s.cfg, s.pc.tx, hash);
      MineStaysShut(s.own, s.now, CallOf(s.cfg, s.pc.tx), hash);
    }
  }

  // -------- the invariant --------

  /** The verified maker leg has been withdrawn, to this wallet. */
  ghost predicate Collected(s: Sys, deal: SwapContext)
    requires deal.hashlock.Some?
  {
    CpLegGood(s, deal) && CpLegWithdrawn(s)
  }

  /** The secret is still the taker's alone, or the swap is done. */
  ghost predicate HiddenOrDone(s: Sys, deal: SwapContext)
    requires deal.hashlock.Some?
  {
    Hidden(s, deal.hashlock.value) || s.wallet.state.CounterpartyRedeemed?
  }

  lemma DoneIsCollected(s: Sys, deal: SwapContext)
    requires Honest(s, deal) && s.wallet.state.CounterpartyRedeemed?
    ensures Collected(s, deal) && !s.pc.Ready?
  {}

  /** A withdrawn lock is an opened hashlock. */
  lemma CpWithdrawnIsOpened(s: Sys, deal: SwapContext)
    requires SysOk(s) && deal.hashlock.Some? && CpLegGood(s, deal) && CpLegWithdrawn(s)
    ensures !NoneOpened(s.cp.world.log, deal.hashlock.value)
  {
    WithdrawnWasOpened(s.cp.world, s.wallet.cpCid.value);
  }

  /** While the secret is hidden a timely redeem succeeds. */
  lemma HiddenRedeemSucceeds(s: Sys, deal: SwapContext)
    requires Honest(s, deal) && deal.role.Taker? && s.pc.Ready? && s.pc.tx.RedeemTx?
    requires Hidden(s, deal.hashlock.value) && deal.me != s.cp.world.site.htlc
    requires Timely(s, Happening.Send(true, true))
    ensures Succeeds(s, true) && SentSys(s, true, true).wallet.state.CounterpartyRedeemed?
  {
    ReadyLegIsGood(s, deal);
    if CpLegWithdrawn(s) {
      CpWithdrawnIsOpened(s, deal);
    }
    RedeemCollectsInTime(s, deal);
    Completes(s.wallet, s.pc.tx, s.pc.tx.contractId, deal.role);
  }

  lemma NextIsHiddenOrDone(s: Sys, h: Happening, deal: SwapContext)
    requires Honest(s, deal) && deal.role.Taker? && HiddenOrDone(s, deal) && Truthful(s, h)
    requires Secretive(s, h, deal.hashlock.value) && Timely(s, h) && deal.me != s.cp.world.site.htlc
    ensures HiddenOrDone(Next(s, h), deal)
    ensures Hidden(s, deal.hashlock.value) && !Hidden(Next(s, h), deal.hashlock.value) ==>
      h == Happening.Send(true, true) && s.pc.Ready? && s.pc.tx.RedeemTx? && Some(s.pc.tx.contractId) == s.wallet.cpCid
  {
    var hash := deal.hashlock.value;
    if s.wallet.state.CounterpartyRedeemed? {
      DoneIsCollected(s, deal);
      NextStaysThrough(s, h);
    }
    if Hidden(s, hash) {
      match h
      case Outside(m) => MoveStaysHidden(s, m, hash);
      case Observe(_, _, _, _, _) => ObserveStaysHidden(s, h, hash);
      case Send(mined, receipt) =>
        if s.pc.Ready? && s.pc.tx.RedeemTx? {
          HiddenRedeemSucceeds(s, deal);
        } else {
          SendStaysHidden(s, mined, receipt, hash);
        }
    }
  }

  lemma SiteStays(s: Sys, h: Happening, deal: SwapContext)
    requires Honest(s, deal)
    ensures Next(s, h).cp.world.site == s.cp.world.site && Next(s, h).own.world.site == s.own.world.site
  {
    match h
    case Outside(m) => MoveOutlived(s, m);
    case Observe(_, _, _, _, _) =>
      ObservedChainsAre(s, h);
      InstantsOutlive(s, h);
    case Send(mined, _) =>
      if s.pc.Ready? { LandedOutlives(s, mined); }
  }

  ghost predicate TakerStarts(s: Sys, deal: SwapContext) {
    Starts(s, deal) && deal.role.Taker? && Hidden(s, deal.hashlock.value) && deal.me != s.cp.world.site.htlc
  }

  lemma {:induction false} RunIsHiddenOrDone(s: Sys, hs: seq<Happening>, deal: SwapContext)
    requires TakerStarts(s, deal) && TruthfulRun(s, hs) && TimelyRun(s, hs, deal.hashlock.value)
    ensures var e := Run(s, hs);
      Honest(e, deal) && HiddenOrDone(e, deal) && e.cp.world.site == s.cp.world.site
    decreases |hs|
  {
    RunIsHonest(s, hs, deal);
    if hs != [] {
      var n := |hs| - 1;
      RunIsHonest(s, hs[..n], deal);
      RunIsHiddenOrDone(s, hs[..n], deal);
      NextIsHiddenOrDone(Run(s, hs[..n]), hs[n], deal);
      SiteStays(Run(s, hs[..n]), hs[n], deal);
    }
  }

  /** While the secret is hidden, nobody can have withdrawn the taker's leg. */
  lemma HiddenLegIsOpen(s: Sys, deal: SwapContext)
    requires Honest(s, deal) && Hidden(s, deal.hashlock.value)
    ensures !OwnLegWithdrawn(s)
  {
    if OwnLegWithdrawn(s) {
      OwnLegIsStored(s, deal);
      WithdrawnIsOpened(s, deal);
    }
  }

  /**
   * Taker atomicity, over all runs and against any maker: if nobody guesses the
   * secret and every redeem is mined before the lock's timelock, then whenever the
   * secret is out or the taker's leg is withdrawn, the swap is done: the verified
   * maker leg has been withdrawn and paid to the taker. Until then, with its leg
   * locked, the secret is hidden and the leg not withdrawn.
   */
  lemma TakerAtomicity(s: Sys, hs: seq<Happening>, deal: SwapContext)
    requires TakerStarts(s, deal) && TruthfulRun(s, hs) && TimelyRun(s, hs, deal.hashlock.value)
    ensures var (e, hash) := (Run(s, hs), deal.hashlock.value);
      && (OwnLegWithdrawn(e) || !Hidden(e, hash) ==>
            e.wallet.state.CounterpartyRedeemed? && Collected(e, deal) && CpLegPaid(e, deal))
      && (e.wallet.state.MyLegLocked? ==> Hidden(e, hash) && !OwnLegWithdrawn(e))
  {
    var e := Run(s, hs);
    RunIsHiddenOrDone(s, hs, deal);
    if Hidden(e, deal.hashlock.value) {
      HiddenLegIsOpen(e, deal);
    } else {
      DoneIsCollected(e, deal);
      WithdrawnIsPaid(e, deal);
    }
  }

  /** Nor does such a taker ever send a refund for a leg already withdrawn, up to the moment it is mined. */
  lemma TakerRefundsOpenLegs(s: Sys, hs: seq<Happening>, deal: SwapContext)
    requires TakerStarts(s, deal) && TruthfulRun(s, hs) && TimelyRun(s, hs, deal.hashlock.value)
    ensures var e := Run(s, hs);
      e.pc.Ready? && e.pc.tx.RefundTx? ==> !OwnLegWithdrawn(e) && Some(e.pc.tx.contractId) == e.wallet.ownCid
  {
    TakerAtomicity(s, hs, deal);
    RunIsHonest(s, hs, deal);
    ReadyRefund(Run(s, hs), deal);
  }

  lemma ReadyRefund(s: Sys, deal: SwapContext)
    requires Honest(s, deal) && deal.role.Taker?
    ensures s.pc.Ready? && s.pc.tx.RefundTx? ==>
      s.wallet.state.MyLegLocked? && Some(s.pc.tx.contractId) == s.wallet.ownCid
  {}

  lemma OwnLegIsStored(s: Sys, deal: SwapContext)
    requires Honest(s, deal) && s.wallet.ownCid.Some?
    ensures OwnLegStored(s, deal)
  {
    StagesTold(s, deal);
  }

  /**
   * Along the same runs the secret leaves hiding in one way only: the wallet's
   * own redeem of the lock it discovered, mined and successful.
   */
  lemma SecretLeavesWithTheRedeem(s: Sys, hs: seq<Happening>, deal: SwapContext)
    requires TakerStarts(s, deal) && TruthfulRun(s, hs) && TimelyRun(s, hs, deal.hashlock.value) && hs != []
    ensures var (before, last, after) := (Run(s, hs[..|hs| - 1]), hs[|hs| - 1], Run(s, hs));
      Hidden(before, deal.hashlock.value) && !Hidden(after, deal.hashlock.value) ==>
        && last == Happening.Send(true, true) && before.pc.Ready? && before.pc.tx.RedeemTx?
        && Some(before.pc.tx.contractId) == before.wallet.cpCid
        && after.wallet.state.CounterpartyRedeemed? && Collected(after, deal)
  {
    var n := |hs| - 1;
    RunIsHiddenOrDone(s, hs, deal);
    RunIsHiddenOrDone(s, hs[..n], deal);
    NextIsHiddenOrDone(Run(s, hs[..n]), hs[n], deal);
    if !Hidden(Run(s, hs), deal.hashlock.value) {
      DoneIsCollected(Run(s, hs), deal);
    }
  }
}
