/**
 * What holds of an honest wallet, in either role, after any run: which states
 * it can be in, what it has sent, and what the chains then hold for it.
 */
module WalletRuns {
  import opened Primitives
  import opened Ledger
  import opened LedgerInvariants
  import opened Observer
  import opened Verify
  import opened StateMachine
  import opened Executor
  import opened TxOutcomes
  import opened SwapSystem

  // -------- one refresh --------

  lemma InstantsOutlive(s: Sys, h: Happening)
    requires h.Observe? && SysOk(s)
    ensures var (s1, s2, s3) := Instants(s, h);
      && SysOk(s1) && SysOk(s2) && SysOk(s3)
      && Outlived(s, s1) && Outlived(s, s2) && Outlived(s, s3)
      && Outlived(s1, s3) && Outlived(s2, s3) && Outlived(s1, s2)
  {
    var (s1, s2, s3) := Instants(s, h);
    MovesOutlived(s, h.beforePoll);
    MovesOutlived(s1, h.beforeRead);
    MovesOutlived(s2, h.beforeOwn);
    OutlivedTransitive(s, s1, s2);
    OutlivedTransitive(s1, s2, s3);
    OutlivedTransitive(s, s2, s3);
  }

  /** The lock a refresh lets through the gate is the one stored, open, and as deep as required, when it was read. */
  ghost predicate SawOpenLock(w: Wallet, read: Node) {
    w.ctx.counterpartyLock.Some? ==>
      && w.cpCid.Some?
      && IsOpen(read, w.cpCid.value) && DeepEnough(read, w.cpCid.value, w.minConfirmations)
      && w.ctx.counterpartyLock.value == ObservedFromSwap(read.world.swaps[w.cpCid.value])
      && w.ctx.counterpartyLock.value.exists_
  }

  /**
   * In `s` a refresh ends that saw `v`: the other chain as it was in `polled`
   * and then in `read`, the own chain as it is now; or no answer.
   */
  ghost predicate SeenBy(s: Sys, v: View, polled: Node, read: Node) {
    && (v.cpBlocks.Some? ==> v.cpBlocks.value == polled.blocks)
    && (v.cpNode.Some? ==> v.cpNode.value == read)
    && (v.ownBlocks.Some? ==> v.ownBlocks.value == s.own.blocks)
    && v.now <= s.now
    && Serves(polled) && Serves(read)
    && InStep(s.wallet.cp, polled.blocks)
    && (exists t :: NodeGrew(polled, s.cp, t)) && (exists t :: NodeGrew(read, s.cp, t))
  }

  lemma RecordStays(n: Node, n1: Node, cid: Word)
    requires exists t :: NodeGrew(n, n1, t)
    requires cid in n.world.swaps
    ensures cid in n1.world.swaps
    ensures var (r, r1) := (n.world.swaps[cid], n1.world.swaps[cid]);
      r1 == r.(withdrawn := r1.withdrawn, refunded := r1.refunded)
  {
    var t :| NodeGrew(n, n1, t);
    assert SwapGrew(n.world.swaps[cid], n1.world.swaps[cid], t);
  }

  /** Polling keeps both observers in step with their chains. */
  lemma PollsStayInStep(s: Sys, v: View, polled: Node, read: Node)
    requires SysOk(s) && SeenBy(s, v, polled, read)
    ensures var cp, own := PolledBy(s.wallet.cp, v.cpBlocks), PolledBy(s.wallet.own, v.ownBlocks);
      && (v.cpBlocks.Some? ==> InStep(cp, polled.blocks) && cp.nextBlock == |polled.blocks|)
      && (v.ownBlocks.Some? ==> own.nextBlock == |s.own.blocks|)
      && InStep(cp, s.cp.blocks) && InStep(own, s.own.blocks)
  {
    PolledIsInStep(s.wallet.cp, polled.blocks);
    PolledIsInStep(s.wallet.own, s.own.blocks);
    InStepLater(Polled(s.wallet.cp, polled.blocks), polled.blocks, s.cp.blocks);
  }

  /** What a poll finds under the hashlock is there, and is what was found before. */
  lemma PollFinds(s: Sys, v: View, polled: Node, read: Node, hash: Word)
    requires WalletOk(s, hash) && SeenBy(s, v, polled, read)
    ensures var found := Discover(PolledBy(s.wallet.cp, v.cpBlocks), hash);
      && (s.wallet.cpCid.Some? ==> found == s.wallet.cpCid)
      && (found.Some? && v.cpBlocks.Some? ==>
            found.value in s.cp.world.swaps && s.cp.world.swaps[found.value].hashlock == hash)
  {
    PollsStayInStep(s, v, polled, read);
    PollRemembers(s.wallet.cp, polled.blocks, hash);
    var cp := PolledBy(s.wallet.cp, v.cpBlocks);
    if v.cpBlocks.Some? {
      DiscoveredExists(cp, polled, hash);
      if Discover(cp, hash).Some? {
        RecordStays(polled, s.cp, Discover(cp, hash).value);
      }
    }
  }

  /** The reads about the other chain were answered. */
  ghost predicate ReadOther(w: Wallet, v: View)
    requires w.ctx.hashlock.Some?
  {
    && v.cpBlocks.Some?
    && ObservedLeg(PolledBy(w.cp, v.cpBlocks), v.cpNode, w.ctx.hashlock.value, w.minConfirmations).Some?
  }

  lemma ReadSeesOpenLock(w: Wallet, v: View, read: Node)
    requires w.ctx.hashlock.Some? && ReadOther(w, v) && Serves(read)
    requires v.cpNode.Some? ==> v.cpNode.value == read
    ensures SawOpenLock(Refreshed(w, v), read)
  {
    var found := Discover(PolledBy(w.cp, v.cpBlocks), w.ctx.hashlock.value);
    if found.Some? {
      DepthGate(read, found.value, w.minConfirmations);
    }
  }

  /** Right after the refresh. */
  ghost function Upon(s: Sys, v: View): Sys
    requires s.wallet.ctx.hashlock.Some?
  {
    s.(wallet := Refreshed(s.wallet, v), pc := Idle)
  }

  /** If the other chain was read, the wallet's knowledge of it is new; if not, it is as before. */
  lemma CpKnowledge(s: Sys, v: View, hash: Word)
    requires s.wallet.ctx.hashlock == Some(hash)
    ensures var (w, e) := (s.wallet, Upon(s, v));
      && e.wallet.cp == PolledBy(w.cp, v.cpBlocks) && e.cp == s.cp
      && (ReadOther(w, v) ==> e.wallet.cpCid == Discover(e.wallet.cp, hash))
      && (!ReadOther(w, v) ==> e.wallet.cpCid == w.cpCid && e.wallet.ctx.counterpartyLock == w.ctx.counterpartyLock)
  {}

  lemma RefreshKeepsCpKnowledge(s: Sys, v: View, polled: Node, read: Node, hash: Word)
    requires WalletOk(s, hash) && SeenBy(s, v, polled, read)
    ensures KnowsCp(Upon(s, v), hash)
    ensures s.wallet.cpCid.Some? ==> Upon(s, v).wallet.cpCid == s.wallet.cpCid
    ensures ReadOther(s.wallet, v) ==> SawOpenLock(Upon(s, v).wallet, read)
  {
    CpKnowledge(s, v, hash);
    PollFinds(s, v, polled, read, hash);
    if ReadOther(s.wallet, v) {
      ReadSeesOpenLock(s.wallet, v, read);
      if Upon(s, v).wallet.ctx.counterpartyLock.Some? {
        RecordStays(read, s.cp, Upon(s, v).wallet.cpCid.value);
      }
    }
  }

  lemma RefreshKnowsAt(s: Sys, v: View, polled: Node, read: Node, hash: Word)
    requires WalletOk(s, hash) && SeenBy(s, v, polled, read)
    ensures WalletOk(Upon(s, v), hash)
  {
    PollsStayInStep(s, v, polled, read);
    RefreshKeepsCpKnowledge(s, v, polled, read, hash);
    if v.ownBlocks.Some? {
      RevealedIffOpened(PolledBy(s.wallet.own, v.ownBlocks), s.own, hash);
    }
  }

  lemma RefreshHearsAt(s: Sys, v: View, polled: Node, read: Node, hash: Word)
    requires WalletOk(s, hash) && SeenBy(s, v, polled, read) && Answered(s.wallet, v)
    ensures Upon(s, v).wallet.ctx.revealedSecret.Some? <==>
      s.wallet.ctx.revealedSecret.Some? || !NoneOpened(s.own.world.log, hash)
  {
    PollsStayInStep(s, v, polled, read);
    RevealedIffOpened(PolledBy(s.wallet.own, v.ownBlocks), s.own, hash);
  }

  lemma ViewIsSeen(s: Sys, now: U64, polled: Node, read: Node, fault: Fault, t1: U64, t2: U64)
    requires now <= s.now && Serves(polled) && Serves(read) && InStep(s.wallet.cp, polled.blocks)
    requires NodeGrew(polled, s.cp, t1) && NodeGrew(read, s.cp, t2)
    ensures SeenBy(s, ViewOf(now, polled, read, s.own, fault), polled, read)
  {}

  lemma InstantsSeen(s: Sys, h: Happening, hash: Word)
    requires h.Observe? && WalletOk(s, hash)
    ensures var (s1, s2, s3) := Instants(s, h);
      && WalletOk(s3, hash) && SeenBy(s3, Seen(s, h), s1.cp, s2.cp) && s3.wallet == s.wallet
      && RefreshedSys(s, h) == Upon(s3, Seen(s, h))
  {
    var (s1, s2, s3) := Instants(s, h);
    InstantsOutlive(s, h);
    MovesKeepKnowledge(s, s3, hash);
    ViewIsSeen(s3, s.now, s1.cp, s2.cp, h.fault, s1.now, s2.now);
  }

  /**
   * Whatever a refresh leaves in the wallet is so, even if a read failed half way,
   * and no discovered lock is ever swapped for another.
   */
  lemma RefreshKnows(s: Sys, h: Happening, hash: Word)
    requires h.Observe? && WalletOk(s, hash)
    ensures var w := RefreshedSys(s, h).wallet;
      && WalletOk(RefreshedSys(s, h), hash)
      && (Answered(s.wallet, Seen(s, h)) ==> SawOpenLock(w, Instants(s, h).1.cp))
      && (s.wallet.cpCid.Some? ==> w.cpCid == s.wallet.cpCid)
  {
    var (s1, s2, s3) := Instants(s, h);
    InstantsSeen(s, h, hash);
    RefreshKnowsAt(s3, Seen(s, h), s1.cp, s2.cp, hash);
    RefreshKeepsCpKnowledge(s3, Seen(s, h), s1.cp, s2.cp, hash);
  }

  /** A full refresh ends with a revealed secret exactly when there was one, or the own log opens the hashlock by then. */
  lemma RefreshHearsSecret(s: Sys, h: Happening, hash: Word)
    requires h.Observe? && WalletOk(s, hash) && Answered(s.wallet, Seen(s, h))
    ensures RefreshedSys(s, h).wallet.ctx.revealedSecret.Some? <==>
      s.wallet.ctx.revealedSecret.Some? || !NoneOpened(Instants(s, h).2.own.world.log, hash)
  {
    var (s1, s2, s3) := Instants(s, h);
    InstantsSeen(s, h, hash);
    RefreshHearsAt(s3, Seen(s, h), s1.cp, s2.cp, hash);
  }

  // -------- the wallet's own stages --------

  /** The agreed terms of a swap, as the runner starts with them. */
  ghost predicate Agreed(deal: SwapContext) {
    && deal.hashlock.Some?
    && (deal.role.Taker? ==> deal.secret.Some? && SHA256(deal.secret.value) == deal.hashlock.value)
  }

  predicate SameDeal(ctx: SwapContext, deal: SwapContext) {
    ctx == deal.(myLegLocked := ctx.myLegLocked, counterpartyLock := ctx.counterpartyLock,
                 revealedSecret := ctx.revealedSecret, now := ctx.now)
  }

  function StartState(role: Role): SwapState {
    if role.Taker? then SecretGenerated else Start
  }

  function LockedState(role: Role): SwapState {
    if role.Taker? then MyLegLocked else WaitingForSecret
  }

  function LockRequest(deal: SwapContext): TxRequest
    requires deal.hashlock.Some?
  {
    LockTx(deal.myRecipient, deal.myToken, deal.myAmount, deal.hashlock.value, deal.myTimelock)
  }

  /** The wallet's own lock is on its chain, with the agreed terms, and is its to refund. */
  ghost predicate OwnLegStored(s: Sys, deal: SwapContext)
    requires deal.hashlock.Some?
  {
    && s.wallet.ownCid.Some?
    && var cid, w := s.wallet.ownCid.value, s.own.world;
       && cid in w.swaps
       && IsDealLock(w.swaps[cid], deal, LockSender(s.cfg, w.site))
       && (s.cfg.path.ViaSettlement? ==> cid in w.legs && w.legs[cid].maker == s.cfg.account)
  }

  predicate IsDealLock(l: Swap, deal: SwapContext, sender: Address)
    requires deal.hashlock.Some?
  {
    && l.hashlock == deal.hashlock.value && l.recipient == deal.myRecipient && l.token == deal.myToken
    && l.amount == deal.myAmount && l.timelock == deal.myTimelock && l.sender == sender
  }

  /** The discovered counterparty lock pays this wallet the agreed sum, on timelocks the gap allows. */
  ghost predicate CpLegGood(s: Sys, deal: SwapContext)
    requires deal.hashlock.Some?
  {
    && s.wallet.cpCid.Some?
    && s.wallet.cpCid.value in s.cp.world.swaps
    && var r := s.cp.world.swaps[s.wallet.cpCid.value];
       && r.hashlock == deal.hashlock.value && r.recipient == deal.me
       && r.token == deal.cpToken && r.amount == deal.cpAmount
       && var (short, long) := if deal.role.Maker? then (deal.myTimelock, r.timelock) else (r.timelock, deal.myTimelock);
          short < long && (short + deal.minGap <= long || long == U64_MAX)
  }

  ghost predicate CpLegWithdrawn(s: Sys) {
    && s.wallet.cpCid.Some?
    && s.wallet.cpCid.value in s.cp.world.swaps
    && s.cp.world.swaps[s.wallet.cpCid.value].withdrawn
  }

  ghost predicate OwnLegWithdrawn(s: Sys) {
    && s.wallet.ownCid.Some?
    && s.wallet.ownCid.value in s.own.world.swaps
    && s.own.world.swaps[s.wallet.ownCid.value].withdrawn
  }

  ghost predicate OwnLegRefunded(s: Sys) {
    && s.wallet.ownCid.Some?
    && s.wallet.ownCid.value in s.own.world.swaps
    && s.own.world.swaps[s.wallet.ownCid.value].refunded
  }

  predicate HasLocked(s: Sys, deal: SwapContext) {
    s.wallet.state == LockedState(deal.role) || s.wallet.state.CounterpartyRedeemed? || s.wallet.state.Refunded?
  }

  /** Which transactions took effect, told from the state. */
  ghost predicate Staged(s: Sys, deal: SwapContext)
    requires deal.hashlock.Some?
  {
    var state, lock := s.wallet.state, LockRequest(deal);
    && (HasLocked(s, deal) ==> OwnLegStored(s, deal) && (deal.role.Maker? ==> CpLegGood(s, deal)))
    && if state == StartState(deal.role) then s.wallet.ownCid == None && s.done == []
       else if state == LockedState(deal.role) then s.done == [lock]
       else
         match state
         case Aborted(why) => deal.role.Maker? && why.UnsafeCounterparty? && s.wallet.ownCid == None && s.done == []
         case CounterpartyRedeemed =>
           && CpLegGood(s, deal) && CpLegWithdrawn(s)
           && |s.done| == 2 && s.done[0] == lock && s.done[1].RedeemTx?
           && Some(s.done[1].contractId) == s.wallet.cpCid && SHA256(s.done[1].secret) == deal.hashlock.value
         case Refunded =>
           && OwnLegRefunded(s)
           && |s.done| == 2 && s.done[0] == lock && s.done[1].RefundTx? && Some(s.done[1].contractId) == s.wallet.ownCid
         case _ => false
  }

  /** A transaction about to be sent is the action decided on the observations of the last refresh. */
  ghost predicate ReadyFits(s: Sys, deal: SwapContext, tx: TxRequest)
    requires deal.hashlock.Some?
  {
    var w := s.wallet;
    match tx
    case LockTx(_, _, _, _, _) =>
      w.state == StartState(deal.role) && tx == LockRequest(deal) && tx.amount > 0
      && NextActionOf(w.state, w.ctx) == deal.Lock(deal.hashlock.value)
    case RedeemTx(cid, secret) =>
      w.state == LockedState(deal.role) && Some(cid) == w.cpCid && SHA256(secret) == deal.hashlock.value
      && NextActionOf(w.state, w.ctx) == NextAction.RedeemCounterpartyLeg(secret)
    case RefundTx(cid) =>
      w.state == LockedState(deal.role) && Some(cid) == w.ownCid && deal.myTimelock <= w.ctx.now
      && NextActionOf(w.state, w.ctx) == NextAction.Refund
      && (deal.role.Maker? ==> !OwnLegWithdrawn(s))
  }

  ghost predicate Honest(s: Sys, deal: SwapContext) {
    && Agreed(deal)
    && WalletOk(s, deal.hashlock.value)
    && SameDeal(s.wallet.ctx, deal)
    && Staged(s, deal)
    && (s.pc.Ready? ==> ReadyFits(s, deal, s.pc.tx))
  }

  // -------- the world moving keeps it --------

  lemma OwnLegOutlives(s: Sys, s1: Sys, deal: SwapContext)
    requires deal.hashlock.Some? && Outlived(s, s1)
    ensures OwnLegStored(s, deal) ==> OwnLegStored(s1, deal)
    ensures OwnLegRefunded(s) ==> OwnLegRefunded(s1)
    ensures OwnLegWithdrawn(s) ==> OwnLegWithdrawn(s1)
    ensures OwnLegStored(s, deal) && deal.myTimelock <= s.now && OwnLegWithdrawn(s1) ==> OwnLegWithdrawn(s)
  {
    if s.wallet.ownCid.Some? && s.wallet.ownCid.value in s.own.world.swaps {
      var cid := s.wallet.ownCid.value;
      assert SwapGrew(s.own.world.swaps[cid], s1.own.world.swaps[cid], s.now);
    }
  }

  lemma CpLegOutlives(s: Sys, s1: Sys, deal: SwapContext)
    requires deal.hashlock.Some? && Outlived(s, s1)
    ensures CpLegGood(s, deal) ==> CpLegGood(s1, deal)
    ensures CpLegWithdrawn(s) ==> CpLegWithdrawn(s1)
  {
    if s.wallet.cpCid.Some? && s.wallet.cpCid.value in s.cp.world.swaps {
      var cid := s.wallet.cpCid.value;
      assert SwapGrew(s.cp.world.swaps[cid], s1.cp.world.swaps[cid], s.now);
    }
  }

  lemma HonestOutlives(s: Sys, s1: Sys, deal: SwapContext)
    requires Honest(s, deal) && Outlived(s, s1) && SysOk(s1)
    ensures Honest(s1, deal)
  {
    MovesKeepKnowledge(s, s1, deal.hashlock.value);
    OwnLegOutlives(s, s1, deal);
    CpLegOutlives(s, s1, deal);
  }

  // -------- observing keeps it --------

  /** A refresh touches what the wallet observes, and nothing else of it. */
  lemma RefreshKeepsStage(s: Sys, v: View, deal: SwapContext)
    requires Agreed(deal) && SameDeal(s.wallet.ctx, deal) && Staged(s, deal)
    requires s.wallet.cpCid.Some? ==> Upon(s, v).wallet.cpCid == s.wallet.cpCid
    ensures SameDeal(Upon(s, v).wallet.ctx, deal) && Staged(Upon(s, v), deal)
  {}

  lemma RefreshedIsHonest(s: Sys, h: Happening, deal: SwapContext)
    requires Honest(s, deal) && h.Observe?
    ensures Honest(RefreshedSys(s, h), deal)
  {
    InstantsOutlive(s, h);
    HonestOutlives(s, Instants(s, h).2, deal);
    InstantsSeen(s, h, deal.hashlock.value);
    RefreshKnows(s, h, deal.hashlock.value);
    RefreshKeepsStage(Instants(s, h).2, Seen(s, h), deal);
  }

  /** A withdrawn lock's hashlock has been opened in the log. */
  lemma WithdrawnWasOpened(w: World, cid: Word)
    requires WorldInv(w) && cid in w.swaps && w.swaps[cid].withdrawn
    ensures !NoneOpened(w.log, w.swaps[cid].hashlock)
  {
    assert Recorded(w.log, [], cid, w.swaps[cid]);
    var p :| LogRedeem(cid, p) in w.log + [];
    var i :| 0 <= i < |w.log| && w.log[i] == LogRedeem(cid, p);
    assert Backed(w, w.log[i]);
  }

  lemma WithdrawnIsOpened(s: Sys, deal: SwapContext)
    requires Agreed(deal) && SysOk(s) && OwnLegStored(s, deal) && OwnLegWithdrawn(s)
    ensures !NoneOpened(s.own.world.log, deal.hashlock.value)
  {
    WithdrawnWasOpened(s.own.world, s.wallet.ownCid.value);
  }

  /** A secret the wallet has not heard of is in nobody's log. */
  ghost predicate Heard(s: Sys, hash: Word) {
    s.wallet.ctx.revealedSecret.None? ==> NoneOpened(s.own.world.log, hash)
  }

  predicate KnownState(state: SwapState, role: Role) {
    || state == StartState(role) || state == LockedState(role)
    || state.CounterpartyRedeemed? || state.Refunded?
    || (state.Aborted? && role.Maker?)
  }

  /** What deciding needs to know of a wallet. */
  ghost predicate Sound(w: Wallet, deal: SwapContext) {
    && Agreed(deal) && SameDeal(w.ctx, deal) && KnownState(w.state, deal.role)
    && (w.state == StartState(deal.role) ==> w.ownCid == None)
    && (w.ctx.revealedSecret.Some? ==> SHA256(w.ctx.revealedSecret.value) == deal.hashlock.value)
  }

  lemma HonestIsSound(s: Sys, deal: SwapContext)
    requires Honest(s, deal)
    ensures Sound(s.wallet, deal)
  {}

  /** All a plan can do: nothing but report, announce a refund, or give up before locking. */
  lemma PlanOutcome(w: Wallet, deal: SwapContext, entropy: Word)
    requires Sound(w, deal)
    ensures var (w1, p) := Plan(w, entropy);
      || (w1 == w && !p.Broadcast?)
      || (w1 == w && w.ownCid.Some? && p == Broadcast(RefundTx(w.ownCid.value))
          && w.state == LockedState(deal.role) && deal.myTimelock <= w.ctx.now
          && NextActionOf(w.state, w.ctx).Refund? && (deal.role.Maker? ==> w.ctx.revealedSecret.None?))
      || (w.state.Start? && p.Stop? && w1.state.Aborted? && w1.state.why.UnsafeCounterparty?
          && w1 == w.(state := w1.state) && deal.role.Maker?)
  {}

  lemma ConfirmOutcome(w: Wallet, deal: SwapContext, planned: NextAction)
    requires Sound(w, deal)
    ensures var (w1, p) := Confirm(w, planned);
      && w1 == w
      && !p.Recheck?
      && (p.Broadcast? ==>
            match p.tx
            case LockTx(_, _, _, _, _) =>
              w.state == StartState(deal.role) && p.tx == LockRequest(deal) && p.tx.amount > 0
              && NextActionOf(w.state, w.ctx) == deal.Lock(deal.hashlock.value)
            case RedeemTx(cid, secret) =>
              w.state == LockedState(deal.role) && Some(cid) == w.cpCid && SHA256(secret) == deal.hashlock.value
              && NextActionOf(w.state, w.ctx) == NextAction.RedeemCounterpartyLeg(secret)
            case RefundTx(_) => false)
  {}

  lemma PcChanged(s: Sys, deal: SwapContext, pc: Pc)
    requires Honest(s, deal) && (pc.Ready? ==> ReadyFits(s, deal, pc.tx))
    ensures Honest(s.(pc := pc), deal)
  {}

  lemma GaveUp(s: Sys, deal: SwapContext, why: AbortReason)
    requires Honest(s, deal) && s.pc.Idle? && s.wallet.state.Start? && deal.role.Maker? && why.UnsafeCounterparty?
    ensures Honest(s.(wallet := s.wallet.(state := Aborted(why))), deal)
  {}

  lemma PlanIsHonest(s: Sys, deal: SwapContext, entropy: Word)
    requires Honest(s, deal) && s.pc.Idle? && Heard(s, deal.hashlock.value)
    ensures Honest(Decided(s, Idle, entropy), deal)
  {
    var (w, p) := Plan(s.wallet, entropy);
    PlanOutcome(s.wallet, deal, entropy);
    if w == s.wallet {
      if p.Broadcast? && deal.role.Maker? && OwnLegWithdrawn(s) {
        WithdrawnIsOpened(s, deal);
      }
      PcChanged(s, deal, PcOf(p));
    } else {
      GaveUp(s, deal, w.state.why);
    }
  }

  lemma ConfirmIsHonest(s: Sys, deal: SwapContext, planned: NextAction, entropy: Word)
    requires Honest(s, deal) && s.pc.Idle?
    ensures Honest(Decided(s, Planned(planned), entropy), deal)
  {
    ConfirmOutcome(s.wallet, deal, planned);
    PcChanged(s, deal, PcOf(Confirm(s.wallet, planned).1));
  }

  lemma DecidedIsHonest(s: Sys, was: Pc, entropy: Word, deal: SwapContext)
    requires Honest(s, deal) && s.pc.Idle? && !was.Ready? && Heard(s, deal.hashlock.value)
    ensures Honest(Decided(s, was, entropy), deal)
  {
    if was.Planned? {
      ConfirmIsHonest(s, deal, was.action, entropy);
    } else {
      PlanIsHonest(s, deal, entropy);
    }
  }

  lemma ObserveIsHonest(s: Sys, h: Happening, deal: SwapContext)
    requires Honest(s, deal) && h.Observe?
    ensures Honest(ObservedSys(s, h), deal)
  {
    if s.pc.Ready? {
      InstantsOutlive(s, h);
      HonestOutlives(s, Instants(s, h).2, deal);
    } else {
      RefreshedIsHonest(s, h, deal);
      if Answered(s.wallet, Seen(s, h)) {
        RefreshHearsSecret(s, h, deal.hashlock.value);
        DecidedIsHonest(RefreshedSys(s, h), s.pc, h.entropy, deal);
      }
    }
  }

  // -------- sending keeps it --------

  lemma LandedOutlives(s: Sys, mined: bool)
    requires s.pc.Ready? && SysOk(s)
    ensures SysOk(Landed(s, mined)) && Outlived(s, Landed(s, mined))
  {
    NodeItself(s.own, s.now);
    NodeItself(s.cp, s.now);
    MineGrows(Target(s), s.now, CallOf(s.cfg, s.pc.tx));
    NodeReplaced(s, Landed(s, mined).own, Landed(s, mined).cp);
  }

  lemma ToldFailureIsHonest(s: Sys, deal: SwapContext)
    requires Honest(s, deal) && s.pc.Ready?
    ensures Honest(Told(s, s.pc.tx, false, false), deal)
  {}

  /** A lock seen as safe through the gate has a good record behind it. */
  lemma SafeLegIsGood(s: Sys, deal: SwapContext)
    requires Agreed(deal) && WalletOk(s, deal.hashlock.value) && SameDeal(s.wallet.ctx, deal)
    requires s.wallet.ctx.SeesSafeLeg()
    ensures CpLegGood(s, deal)
    ensures deal.role.Taker? ==>
      s.wallet.ctx.now + deal.minGap <= s.cp.world.swaps[s.wallet.cpCid.value].timelock
  {
    SafeExactly(s.wallet.ctx.Expectation(), s.wallet.ctx.counterpartyLock.value);
  }

  /** The state after a lock that took effect. */
  lemma LockLands(s: Sys, deal: SwapContext)
    requires Honest(s, deal) && s.pc.Ready? && s.pc.tx.LockTx? && Succeeds(s, true)
    ensures var s1 := Landed(s, true);
      var cid := OwnId(s1.cfg, s1.own.world.site, s.pc.tx);
      && cid in s1.own.world.swaps
      && IsDealLock(s1.own.world.swaps[cid], deal, LockSender(s.cfg, s1.own.world.site))
      && (s.cfg.path.ViaSettlement? ==> cid in s1.own.world.legs && s1.own.world.legs[cid].maker == s.cfg.account)
  {
    LandedOutlives(s, true);
    LockStores(s.own.world, s.now, CallOf(s.cfg, s.pc.tx));
  }

  lemma Completes(w: Wallet, tx: TxRequest, id: Word, role: Role)
    requires w.state == if tx.LockTx? then StartState(role) else LockedState(role)
    ensures var w1 := Complete(w, tx, Some(id)).0;
      match tx
      case LockTx(_, _, _, _, _) =>
        w1 == w.(ownCid := Some(id), ctx := w.ctx.(myLegLocked := true), state := LockedState(role))
      case RedeemTx(_, _) => w1 == w.(state := CounterpartyRedeemed)
      case RefundTx(_) => w1 == w.(state := Refunded)
  {}

  /** What the wallet knows of the chains does not depend on its own progress. */
  lemma ProgressKeepsKnowledge(s: Sys, s1: Sys, hash: Word)
    requires WalletOk(s, hash)
    requires s1.own == s.own && s1.cp == s.cp && s1.now == s.now
    requires s1.wallet == s.wallet.(state := s1.wallet.state, ownCid := s1.wallet.ownCid,
                                    ctx := s.wallet.ctx.(myLegLocked := s1.wallet.ctx.myLegLocked))
    ensures WalletOk(s1, hash)
  {}

  lemma ToldLockIsHonest(s: Sys, deal: SwapContext, tx: TxRequest)
    requires Honest(s, deal) && s.pc == Ready(tx) && tx.LockTx?
    requires var cid := OwnId(s.cfg, s.own.world.site, tx);
      && cid in s.own.world.swaps
      && IsDealLock(s.own.world.swaps[cid], deal, LockSender(s.cfg, s.own.world.site))
      && (s.cfg.path.ViaSettlement? ==> cid in s.own.world.legs && s.own.world.legs[cid].maker == s.cfg.account)
    requires deal.role.Maker? ==> CpLegGood(s, deal)
    ensures Honest(Told(s, tx, true, true), deal)
  {
    Completes(s.wallet, tx, OwnId(s.cfg, s.own.world.site, tx), deal.role);
    ProgressKeepsKnowledge(s, Told(s, tx, true, true), deal.hashlock.value);
  }

  lemma ToldRedeemIsHonest(s: Sys, deal: SwapContext, tx: TxRequest)
    requires Honest(s, deal) && s.pc == Ready(tx) && tx.RedeemTx?
    requires CpLegGood(s, deal) && CpLegWithdrawn(s)
    ensures Honest(Told(s, tx, true, true), deal)
  {
    Completes(s.wallet, tx, tx.contractId, deal.role);
    ProgressKeepsKnowledge(s, Told(s, tx, true, true), deal.hashlock.value);
    SecondTransaction(s, Told(s, tx, true, true), deal, tx);
  }

  /** After the lock, one more transaction and the wallet is done. */
  lemma SecondTransaction(s: Sys, e: Sys, deal: SwapContext, tx: TxRequest)
    requires deal.hashlock.Some? && Staged(s, deal) && s.wallet.state == LockedState(deal.role)
    requires e == s.(wallet := s.wallet.(state := e.wallet.state), pc := Idle, shown := e.shown, done := s.done + [tx])
    requires match tx
      case LockTx(_, _, _, _, _) => false
      case RedeemTx(cid, secret) =>
        e.wallet.state == CounterpartyRedeemed && CpLegGood(s, deal) && CpLegWithdrawn(s)
        && Some(cid) == s.wallet.cpCid && SHA256(secret) == deal.hashlock.value
      case RefundTx(cid) => e.wallet.state == Refunded && OwnLegRefunded(s) && Some(cid) == s.wallet.ownCid
    ensures Staged(e, deal)
  {
    assert e.done == [LockRequest(deal), tx];
  }

  lemma ToldRefundIsHonest(s: Sys, deal: SwapContext, tx: TxRequest)
    requires Honest(s, deal) && s.pc == Ready(tx) && tx.RefundTx? && OwnLegRefunded(s)
    ensures Honest(Told(s, tx, true, true), deal)
  {
    Completes(s.wallet, tx, tx.contractId, deal.role);
    ProgressKeepsKnowledge(s, Told(s, tx, true, true), deal.hashlock.value);
    SecondTransaction(s, Told(s, tx, true, true), deal, tx);
  }

  lemma ReadyLegIsGood(s: Sys, deal: SwapContext)
    requires Honest(s, deal) && s.pc.Ready?
    requires if deal.role.Maker? then s.pc.tx.LockTx? || s.pc.tx.RedeemTx? else s.pc.tx.RedeemTx?
    ensures CpLegGood(s, deal)
    ensures deal.role.Taker? ==>
      s.wallet.ctx.now + deal.minGap <= s.cp.world.swaps[s.wallet.cpCid.value].timelock
  {
    if deal.role.Taker? || s.pc.tx.LockTx? {
      GatedOnSafety(s.wallet.state, s.wallet.ctx);
      SafeLegIsGood(s, deal);
    }
  }

  lemma LockSentIsHonest(s: Sys, deal: SwapContext)
    requires Honest(s, deal) && s.pc.Ready? && s.pc.tx.LockTx? && Succeeds(s, true)
    requires Honest(Landed(s, true), deal)
    ensures Honest(SentSys(s, true, true), deal)
  {
    LandedOutlives(s, true);
    LockLands(s, deal);
    if deal.role.Maker? {
      ReadyLegIsGood(Landed(s, true), deal);
    }
    ToldLockIsHonest(Landed(s, true), deal, s.pc.tx);
  }

  lemma RedeemSentIsHonest(s: Sys, deal: SwapContext)
    requires Honest(s, deal) && s.pc.Ready? && s.pc.tx.RedeemTx? && Succeeds(s, true)
    requires Honest(Landed(s, true), deal)
    ensures Honest(SentSys(s, true, true), deal)
  {
    ReadyLegIsGood(Landed(s, true), deal);
    RedeemMeans(s.cp.world, s.now, s.pc.tx.contractId, s.pc.tx.secret, TAKES);
    ToldRedeemIsHonest(Landed(s, true), deal, s.pc.tx);
  }

  lemma RefundSentIsHonest(s: Sys, deal: SwapContext)
    requires Honest(s, deal) && s.pc.Ready? && s.pc.tx.RefundTx? && Succeeds(s, true)
    requires Honest(Landed(s, true), deal)
    ensures Honest(SentSys(s, true, true), deal)
  {
    RefundMeans(s.own.world, s.now, CallOf(s.cfg, s.pc.tx));
    ToldRefundIsHonest(Landed(s, true), deal, s.pc.tx);
  }

  /** Told the truth about its transaction, the wallet stays in order. */
  lemma SendIsHonest(s: Sys, mined: bool, deal: SwapContext)
    requires Honest(s, deal) && s.pc.Ready?
    ensures Honest(SentSys(s, mined, Succeeds(s, mined)), deal)
  {
    LandedOutlives(s, mined);
    HonestOutlives(s, Landed(s, mined), deal);
    if !Succeeds(s, mined) {
      ToldFailureIsHonest(Landed(s, mined), deal);
    } else {
      match s.pc.tx
      case LockTx(_, _, _, _, _) => LockSentIsHonest(s, deal);
      case RedeemTx(_, _) => RedeemSentIsHonest(s, deal);
      case RefundTx(_) => RefundSentIsHonest(s, deal);
    }
  }

  // -------- whole runs --------

  /** How the runner starts a wallet. */
  ghost predicate Starts(s: Sys, deal: SwapContext) {
    && Agreed(deal)
    && deal.counterpartyLock.None? && deal.revealedSecret.None? && !deal.myLegLocked
    && s.wallet == Wallet(StartState(deal.role), deal, Fresh(s.wallet.own.chainId), Fresh(s.wallet.cp.chainId),
                          None, None, s.wallet.minConfirmations)
    && s.pc == Idle && s.shown == {} && s.done == []
    && NodeOk(s.own, s.now) && NodeOk(s.cp, s.now) && deal.now <= s.now
  }

  lemma StartIsHonest(s: Sys, deal: SwapContext)
    requires Starts(s, deal)
    ensures Honest(s, deal)
  {
    assert s.own.blocks[..0] == [] && s.cp.blocks[..0] == [];
  }

  lemma NextIsHonest(s: Sys, h: Happening, deal: SwapContext)
    requires Honest(s, deal) && Truthful(s, h)
    ensures Honest(Next(s, h), deal)
  {
    match h
    case Outside(m) =>
      MoveOutlived(s, m);
      HonestOutlives(s, Moved(s, m), deal);
    case Observe(_, _, _, _, _) => ObserveIsHonest(s, h, deal);
    case Send(mined, _) =>
      if s.pc.Ready? { SendIsHonest(s, mined, deal); }
  }

  lemma {:induction false} RunIsHonest(s: Sys, hs: seq<Happening>, deal: SwapContext)
    requires Starts(s, deal) && TruthfulRun(s, hs)
    ensures Honest(Run(s, hs), deal)
    decreases |hs|
  {
    if hs == [] {
      StartIsHonest(s, deal);
    } else {
      RunIsHonest(s, hs[..|hs| - 1], deal);
      NextIsHonest(Run(s, hs[..|hs| - 1]), hs[|hs| - 1], deal);
    }
  }
}
