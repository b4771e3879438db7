/** What an honest wallet promises whatever everybody else does, in either role. */
module WalletTheorems {
  import opened Primitives
  import opened Ledger
  import opened Observer
  import opened Verify
  import opened StateMachine
  import opened Executor
  import opened TxOutcomes
  import opened SwapSystem
  import opened WalletRuns

  // -------- run discipline --------

  /**
   * After any run: at most one lock, then at most one redeem or one refund,
   * never both; the own contract id is known exactly when the lock was made; and
   * the only abort there is happens before any money moved.
   */
  lemma RunDiscipline(s: Sys, hs: seq<Happening>, deal: SwapContext)
    requires Starts(s, deal) && TruthfulRun(s, hs)
    ensures var e := Run(s, hs);
      && (e.done == []
          || e.done == [LockRequest(deal)]
          || (|e.done| == 2 && e.done[0] == LockRequest(deal) && e.done[1].RedeemTx?)
          || (|e.done| == 2 && e.done[0] == LockRequest(deal) && e.done[1].RefundTx?))
      && (e.wallet.ownCid.Some? <==> e.done != [])
      && (e.wallet.ownCid.Some? ==> e.wallet.state != Start && e.wallet.state != SecretGenerated)
      && (e.wallet.state.Aborted? ==> e.wallet.state.why.UnsafeCounterparty? && e.done == [])
      && (e.wallet.state.CounterpartyRedeemed? <==> |e.done| == 2 && e.done[1].RedeemTx?)
      && (e.wallet.state.Refunded? <==> |e.done| == 2 && e.done[1].RefundTx?)
  {
    RunIsHonest(s, hs, deal);
    StagesTold(Run(s, hs), deal);
  }

  lemma StagesTold(s: Sys, deal: SwapContext)
    requires deal.hashlock.Some? && Staged(s, deal)
    ensures s.wallet.ownCid.Some? <==> s.done != []
    ensures |s.done| <= 2 && (s.done != [] ==> s.done[0] == LockRequest(deal))
    ensures |s.done| == 2 ==> s.done[1].RedeemTx? || s.done[1].RefundTx?
    ensures s.wallet.state.CounterpartyRedeemed? <==> |s.done| == 2 && s.done[1].RedeemTx?
    ensures s.wallet.state.Refunded? <==> |s.done| == 2 && s.done[1].RefundTx?
    ensures |s.done| == 1 <==> s.wallet.state == LockedState(deal.role)
    ensures s.wallet.state.Aborted? ==> s.wallet.state.why.UnsafeCounterparty? && s.done == []
    ensures s.done == [] <==> s.wallet.state == StartState(deal.role) || s.wallet.state.Aborted?
  {}

  /** The swap never goes back, and every transaction that takes effect moves it forward. */
  lemma NextNeverClimbs(s: Sys, h: Happening, deal: SwapContext)
    requires Honest(s, deal) && Truthful(s, h)
    ensures Rank(Next(s, h).wallet.state) <= Rank(s.wallet.state)
    ensures Next(s, h).done != s.done ==> Rank(Next(s, h).wallet.state) < Rank(s.wallet.state)
  {
    match h
    case Outside(m) =>
      MoveOutlived(s, m);
    case Observe(_, _, _, _, _) => ObserveNeverClimbs(s, h, deal);
    case Send(mined, _) => SendNeverClimbs(s, mined, deal);
  }

  lemma DecidingNeverClimbs(s: Sys, was: Pc, entropy: Word, deal: SwapContext)
    requires Sound(s.wallet, deal)
    ensures Rank(Decided(s, was, entropy).wallet.state) <= Rank(s.wallet.state)
    ensures Decided(s, was, entropy).done == s.done
  {
    PlanOutcome(s.wallet, deal, entropy);
    if was.Planned? {
      ConfirmOutcome(s.wallet, deal, was.action);
    }
  }

  lemma RefreshedIsSound(s: Sys, h: Happening, deal: SwapContext)
    requires Honest(s, deal) && h.Observe?
    ensures Sound(RefreshedSys(s, h).wallet, deal)
    ensures RefreshedSys(s, h).wallet.state == s.wallet.state && RefreshedSys(s, h).done == s.done
  {
    InstantsOutlive(s, h);
    RefreshedIsHonest(s, h, deal);
    HonestIsSound(RefreshedSys(s, h), deal);
  }

  lemma ObserveNeverClimbs(s: Sys, h: Happening, deal: SwapContext)
    requires Honest(s, deal) && h.Observe?
    ensures Rank(ObservedSys(s, h).wallet.state) <= Rank(s.wallet.state)
    ensures ObservedSys(s, h).done == s.done
  {
    if s.pc.Ready? {
      InstantsOutlive(s, h);
    } else {
      RefreshedIsSound(s, h, deal);
      DecidingNeverClimbs(RefreshedSys(s, h), s.pc, h.entropy, deal);
    }
  }

  lemma CompletingClimbsDown(w: Wallet, tx: TxRequest, id: Word, role: Role)
    requires w.state == if tx.LockTx? then StartState(role) else LockedState(role)
    ensures Rank(Complete(w, tx, Some(id)).0.state) < Rank(w.state)
  {
    Completes(w, tx, id, role);
  }

  lemma ReadyState(s: Sys, deal: SwapContext)
    requires Honest(s, deal) && s.pc.Ready?
    ensures s.wallet.state == if s.pc.tx.LockTx? then StartState(deal.role) else LockedState(deal.role)
  {}

  lemma SendNeverClimbs(s: Sys, mined: bool, deal: SwapContext)
    requires Honest(s, deal)
    ensures s.pc.Ready? ==>
      var e := SentSys(s, mined, Succeeds(s, mined));
      Rank(e.wallet.state) <= Rank(s.wallet.state) && (e.done != s.done ==> Rank(e.wallet.state) < Rank(s.wallet.state))
  {
    if s.pc.Ready? {
      ReadyState(s, deal);
      var tx := s.pc.tx;
      var id := if tx.LockTx? then OwnId(s.cfg, Landed(s, mined).own.world.site, tx) else tx.contractId;
      CompletingClimbsDown(s.wallet, tx, id, deal.role);
    }
  }

  // -------- a wallet that is through stays through --------

  /** The executor has nothing more to do, and will do nothing more. */
  ghost predicate IsThrough(s: Sys) {
    (s.wallet.state.CounterpartyRedeemed? || s.wallet.state.Refunded?) && !s.pc.Ready?
  }

  lemma DecidingStaysThrough(s: Sys, was: Pc, entropy: Word)
    requires s.wallet.state.CounterpartyRedeemed? || s.wallet.state.Refunded?
    ensures Decided(s, was, entropy).wallet == s.wallet && Decided(s, was, entropy).pc == Idle
    ensures Decided(s, was, entropy).done == s.done
  {}

  lemma RefreshKeepsProgress(s: Sys, h: Happening)
    requires h.Observe? && s.wallet.ctx.hashlock.Some?
    ensures var e := RefreshedSys(s, h);
      e.wallet.state == s.wallet.state && e.done == s.done && e.wallet.ownCid == s.wallet.ownCid && e.pc == Idle
  {
    InstantsKeepWallet(s, h);
  }

  lemma ObservingStaysThrough(s: Sys, h: Happening)
    requires IsThrough(s) && h.Observe? && s.wallet.ctx.hashlock.Some?
    ensures var e := ObservedSys(s, h);
      IsThrough(e) && e.wallet.state == s.wallet.state && e.done == s.done && e.wallet.ctx.hashlock.Some?
  {
    RefreshKeepsProgress(s, h);
    RefreshKeepsHashlock(s, h);
    DecidingStaysThrough(RefreshedSys(s, h), s.pc, h.entropy);
  }

  lemma RefreshKeepsHashlock(s: Sys, h: Happening)
    requires h.Observe? && s.wallet.ctx.hashlock.Some?
    ensures RefreshedSys(s, h).wallet.ctx.hashlock == s.wallet.ctx.hashlock
  {}

  lemma NextStaysThrough(s: Sys, h: Happening)
    requires IsThrough(s) && s.wallet.ctx.hashlock.Some?
    ensures var e := Next(s, h);
      IsThrough(e) && e.wallet.state == s.wallet.state && e.done == s.done && e.wallet.ctx.hashlock.Some?
  {
    match h
    case Outside(m) => MoveKeepsWallet(s, m);
    case Observe(_, _, _, _, _) => ObservingStaysThrough(s, h);
    case Send(_, _) =>
  }

  /** Whatever happens from there on. */
  lemma {:induction false} RunStaysThrough(s: Sys, hs: seq<Happening>)
    requires IsThrough(s) && s.wallet.ctx.hashlock.Some?
    ensures var e := Run(s, hs);
      IsThrough(e) && e.wallet.state == s.wallet.state && e.done == s.done && e.wallet.ctx.hashlock.Some?
    decreases |hs|
  {
    if hs != [] {
      RunStaysThrough(s, hs[..|hs| - 1]);
      NextStaysThrough(Run(s, hs[..|hs| - 1]), hs[|hs| - 1]);
    }
  }

  // -------- what is sent was just decided again --------

  /**
   * A lock or redeem becomes ready only at the second refresh, and then it is
   * the action the state machine gives on that refresh's own context. Where the
   * role's gate applies, that context sees a safe leg, and the lock it saw is
   * the chain's record of the very contract id the wallet holds, open and at
   * least as many blocks deep as the wallet asks for when it was read.
   */
  lemma BroadcastIsReverified(s: Sys, h: Happening, deal: SwapContext)
    requires Honest(s, deal) && s.pc.Planned? && h.Observe? && ObservedSys(s, h).pc.Ready?
    ensures ObservedSys(s, h).wallet == RefreshedSys(s, h).wallet
    ensures Reverified(RefreshedSys(s, h).wallet, s.pc.action, ObservedSys(s, h).pc.tx, Instants(s, h).1.cp, deal)
  {
    RefreshedIsSound(s, h, deal);
    RefreshKnows(s, h, deal.hashlock.value);
    ConfirmedIsReverified(RefreshedSys(s, h), s.pc, h.entropy, Instants(s, h).1.cp, deal);
  }

  /** `tx` is what wallet `w` decides now, as it did when it planned; where the gate applies, on the lock stored in `read`. */
  ghost predicate Reverified(w: Wallet, planned: NextAction, tx: TxRequest, read: Node, deal: SwapContext) {
    && !tx.RefundTx?
    && NextActionOf(w.state, w.ctx) ==
       (if tx.LockTx? then LockMyLeg(tx.recipient, tx.token, tx.amount, tx.hashlock, tx.timelock)
        else NextAction.RedeemCounterpartyLeg(tx.secret))
    && planned == NextActionOf(w.state, w.ctx)
    && ((if deal.role.Maker? then tx.LockTx? else tx.RedeemTx?) ==>
          && w.ctx.SeesSafeLeg()
          && w.cpCid.Some? && IsOpen(read, w.cpCid.value) && DeepEnough(read, w.cpCid.value, w.minConfirmations)
          && w.ctx.counterpartyLock == Some(ObservedFromSwap(read.world.swaps[w.cpCid.value])))
    && (tx.RedeemTx? ==> Some(tx.contractId) == w.cpCid)
  }

  lemma ConfirmedIsReverified(s: Sys, was: Pc, entropy: Word, read: Node, deal: SwapContext)
    requires Sound(s.wallet, deal) && SawOpenLock(s.wallet, read) && was.Planned? && Decided(s, was, entropy).pc.Ready?
    ensures Decided(s, was, entropy).wallet == s.wallet
    ensures Reverified(s.wallet, was.action, Decided(s, was, entropy).pc.tx, read, deal)
  {
    ConfirmOutcome(s.wallet, deal, was.action);
    GatedOnSafety(s.wallet.state, s.wallet.ctx);
  }

  // -------- no stranded leg --------

  lemma OpenedStays(log: seq<Event>, log1: seq<Event>, hash: Word)
    requires log <= log1 && !NoneOpened(log, hash)
    ensures !NoneOpened(log1, hash)
  {
    var i :| 0 <= i < |log| && log[i].LogRedeem? && SHA256(log[i].preimage) == hash;
    assert log1[i] == log[i];
  }

  /** The secret is out: already heard, or readable in the own log by the time this refresh reads it. */
  ghost predicate Hears(s: Sys, h: Happening, hash: Word)
    requires h.Observe?
  {
    s.wallet.ctx.revealedSecret.Some? || !NoneOpened(Instants(s, h).2.own.world.log, hash)
  }

  /**
   * Once the own timelock is over, a wallet whose leg is locked acts at its next
   * step. A taker refunds. A maker refunds exactly when no secret has been
   * revealed, and otherwise goes for the taker's leg; it never waits or aborts.
   */
  lemma ExpiredLegIsActedOn(s: Sys, h: Happening, deal: SwapContext)
    requires Honest(s, deal) && s.pc.Idle? && h.Observe? && Answered(s.wallet, Seen(s, h))
    requires s.wallet.state == LockedState(deal.role) && deal.myTimelock <= s.now
    ensures var s1 := ObservedSys(s, h);
      && s1.wallet.state == s.wallet.state
      && (deal.role.Taker? || !Hears(s, h, deal.hashlock.value) ==>
            s.wallet.ownCid.Some? && s1.pc == Ready(RefundTx(s.wallet.ownCid.value)))
      && (deal.role.Maker? && Hears(s, h, deal.hashlock.value) ==>
            s1.pc.Planned? && s1.pc.action.RedeemCounterpartyLeg? && SHA256(s1.pc.action.secret) == deal.hashlock.value)
  {
    RefreshedIsSound(s, h, deal);
    RefreshHearsSecret(s, h, deal.hashlock.value);
    assert s.wallet.ownCid.Some?;
    ExpiredDecision(RefreshedSys(s, h), h.entropy, deal);
  }

  lemma ExpiredDecision(s: Sys, entropy: Word, deal: SwapContext)
    requires Sound(s.wallet, deal) && s.wallet.state == LockedState(deal.role)
    requires s.wallet.ownCid.Some? && deal.myTimelock <= s.wallet.ctx.now
    ensures var (s1, secret) := (Decided(s, Idle, entropy), s.wallet.ctx.revealedSecret);
      && s1.wallet == s.wallet
      && (deal.role.Taker? || secret.None? ==> s1.pc == Ready(RefundTx(s.wallet.ownCid.value)))
      && (deal.role.Maker? && secret.Some? ==> s1.pc == Planned(NextAction.RedeemCounterpartyLeg(secret.value)))
  {
    ExpiredPlan(s.wallet, deal, entropy);
  }

  lemma ExpiredPlan(w: Wallet, deal: SwapContext, entropy: Word)
    requires Agreed(deal) && SameDeal(w.ctx, deal) && w.state == LockedState(deal.role)
    requires w.ownCid.Some? && deal.myTimelock <= w.ctx.now
    ensures Plan(w, entropy).0 == w
    ensures deal.role.Taker? || w.ctx.revealedSecret.None? ==>
      Plan(w, entropy).1 == Broadcast(RefundTx(w.ownCid.value))
    ensures deal.role.Maker? && w.ctx.revealedSecret.Some? ==>
      Plan(w, entropy).1 == Recheck(NextAction.RedeemCounterpartyLeg(w.ctx.revealedSecret.value))
  {
    if deal.role.Taker? && w.ctx.counterpartyLock.Some?
       && VerifyCounterpartyLeg(w.ctx.Expectation(), w.ctx.counterpartyLock.value) == Safe {
      TakerSafeIsEarly(w.ctx.Expectation(), w.ctx.counterpartyLock.value);
    }
  }

  /** A refund that is sent and mined gives the leg back, unless it had been withdrawn. */
  lemma RefundAttemptWorks(s: Sys, deal: SwapContext)
    requires Honest(s, deal) && s.pc.Ready? && s.pc.tx.RefundTx?
    requires s.own.world.site.External(s.cfg.account) && !OwnLegWithdrawn(s)
    ensures OwnLegRefunded(Landed(s, true)) && (!OwnLegRefunded(s) ==> Succeeds(s, true))
    ensures forall receipt :: OwnLegRefunded(SentSys(s, true, receipt))
    ensures Succeeds(s, true) ==> SentSys(s, true, true).wallet.state == Refunded
  {
    LandedOutlives(s, true);
    OwnLegOutlives(s, Landed(s, true), deal);
    var w, cid := s.own.world, s.pc.tx.contractId;
    if s.cfg.path.Direct? {
      RefundSucceeds(w, s.now, s.cfg.account, cid);
    } else {
      RefundLegSucceeds(w, s.now, cid);
    }
    Completes(s.wallet, s.pc.tx, cid, deal.role);
  }

  /** A maker never sends a refund for a leg already withdrawn, up to the moment it is mined. */
  lemma MakerRefundsOpenLegs(s: Sys, hs: seq<Happening>, deal: SwapContext)
    requires Starts(s, deal) && TruthfulRun(s, hs) && deal.role.Maker?
    ensures var e := Run(s, hs);
      e.pc.Ready? && e.pc.tx.RefundTx? ==> !OwnLegWithdrawn(e) && Some(e.pc.tx.contractId) == e.wallet.ownCid
  {
    RunIsHonest(s, hs, deal);
  }

  // -------- one whole step --------

  /** A step with the world moving at every point where the executor waits for the network. */
  datatype Turn = Turn(
    first: Happening, pause: seq<Move>, second: Happening, beforeSend: seq<Move>, mined: bool, receipt: bool)

  predicate Proper(t: Turn) { t.first.Observe? && t.second.Observe? }

  ghost function Rechecked(s1: Sys, t: Turn): Sys
    requires Proper(t)
  {
    if s1.pc.Planned? then ObservedSys(MovedAll(s1, t.pause), t.second) else s1
  }

  /** The broadcast, if there is one. */
  ghost function Finish(s: Sys, t: Turn): Sys {
    if s.pc.Ready? then SentSys(MovedAll(s, t.beforeSend), t.mined, t.receipt) else s
  }

  ghost function WholeStep(s: Sys, t: Turn): Sys
    requires Proper(t)
  {
    Finish(Rechecked(ObservedSys(s, t.first), t), t)
  }

  /** What the network answers: the id of the lock made or acted on, or nothing. */
  ghost function AnswerTo(s: Sys, mined: bool, receipt: bool): Option<Word> {
    if s.pc.Ready? && receipt
    then Some(if s.pc.tx.LockTx? then OwnId(s.cfg, Landed(s, mined).own.world.site, s.pc.tx) else s.pc.tx.contractId)
    else None
  }

  ghost function FinalAnswer(s: Sys, t: Turn): Option<Word> {
    AnswerTo(MovedAll(s, t.beforeSend), t.mined, t.receipt)
  }

  /** What that step takes from outside, as `StepOf` sees it. */
  ghost function InputOf(s: Sys, t: Turn): StepInput
    requires Proper(t)
  {
    var s1 := ObservedSys(s, t.first);
    StepInput(Seen(s, t.first), t.first.entropy, Seen(MovedAll(s1, t.pause), t.second), FinalAnswer(Rechecked(s1, t), t))
  }

  lemma PausedIsHonest(s: Sys, ms: seq<Move>, deal: SwapContext)
    requires Honest(s, deal)
    ensures Honest(MovedAll(s, ms), deal)
    ensures MovedAll(s, ms).wallet == s.wallet && MovedAll(s, ms).pc == s.pc && MovedAll(s, ms).cfg == s.cfg
  {
    MovesOutlived(s, ms);
    HonestOutlives(s, MovedAll(s, ms), deal);
  }

  lemma SentAsAnswered(s: Sys, mined: bool, receipt: bool)
    requires s.pc.Ready?
    ensures SentSys(s, mined, receipt).wallet == Sent(s.wallet, s.pc.tx, AnswerTo(s, mined, receipt)).wallet
  {}

  lemma FinishedAsAnswered(s: Sys, t: Turn, deal: SwapContext)
    requires Honest(s, deal)
    ensures Finish(s, t).wallet ==
      if s.pc.Ready? then Sent(s.wallet, s.pc.tx, FinalAnswer(s, t)).wallet else s.wallet
  {
    PausedIsHonest(s, t.beforeSend, deal);
    if s.pc.Ready? {
      SentAsAnswered(MovedAll(s, t.beforeSend), t.mined, t.receipt);
    }
  }

  /** What an observation makes of the wallet, and what it leads to. */
  ghost function Judged(w: Wallet, v: View, was: Pc, entropy: Word): (Wallet, Pc)
    requires w.ctx.hashlock.Some?
  {
    var w1 := Refreshed(w, v);
    if !Answered(w, v) then (w1, Idle)
    else if was.Planned? then (Confirm(w1, was.action).0, PcOf(Confirm(w1, was.action).1))
    else (Plan(w1, entropy).0, PcOf(Plan(w1, entropy).1))
  }

  lemma ObservedAsJudged(s: Sys, h: Happening)
    requires !s.pc.Ready? && h.Observe? && s.wallet.ctx.hashlock.Some?
    ensures (ObservedSys(s, h).wallet, ObservedSys(s, h).pc) == Judged(s.wallet, Seen(s, h), s.pc, h.entropy)
  {}

  lemma ActSends(w: Wallet, planned: NextAction, i: StepInput, pc: Pc, entropy: Word)
    requires w.ctx.hashlock.Some? && pc == Judged(w, i.second, Planned(planned), entropy).1
    ensures var w1 := Judged(w, i.second, Planned(planned), entropy).0;
      Act(w, planned, i).wallet == if pc.Ready? then Sent(w1, pc.tx, i.mined).wallet else w1
  {}

  lemma RecheckedAsJudged(s1: Sys, t: Turn, deal: SwapContext)
    requires Honest(s1, deal) && s1.pc.Planned? && Proper(t)
    ensures (Rechecked(s1, t).wallet, Rechecked(s1, t).pc)
      == Judged(s1.wallet, Seen(MovedAll(s1, t.pause), t.second), s1.pc, t.second.entropy)
  {
    PausedIsHonest(s1, t.pause, deal);
    ObservedAsJudged(MovedAll(s1, t.pause), t.second);
  }

  lemma RecheckedIsHonest(s1: Sys, t: Turn, deal: SwapContext)
    requires Honest(s1, deal) && Proper(t)
    ensures Honest(Rechecked(s1, t), deal)
  {
    PausedIsHonest(s1, t.pause, deal);
    ObserveIsHonest(MovedAll(s1, t.pause), t.second, deal);
  }

  /** What the step's spec makes of a wallet and a decision already taken. */
  ghost function Concluded(w: Wallet, pc: Pc, i: StepInput): Wallet
    requires w.ctx.hashlock.Some?
  {
    match pc
    case Idle => w
    case Ready(tx) => Sent(w, tx, i.mined).wallet
    case Planned(a) => Act(w, a, i).wallet
  }

  ghost predicate Answers(i: StepInput, s1: Sys, t: Turn)
    requires Proper(t)
  {
    i.second == Seen(MovedAll(s1, t.pause), t.second) && i.mined == FinalAnswer(Rechecked(s1, t), t)
  }

  lemma RestOfPlannedStep(s1: Sys, s2: Sys, e: Sys, i: StepInput, entropy: Word)
    requires s1.wallet.ctx.hashlock.Some? && s1.pc.Planned?
    requires (s2.wallet, s2.pc) == Judged(s1.wallet, i.second, s1.pc, entropy)
    requires e.wallet == if s2.pc.Ready? then Sent(s2.wallet, s2.pc.tx, i.mined).wallet else s2.wallet
    ensures e.wallet == Concluded(s1.wallet, s1.pc, i)
  {
    ActSends(s1.wallet, s1.pc.action, i, s2.pc, entropy);
  }

  lemma RestOfStep(s1: Sys, t: Turn, i: StepInput, deal: SwapContext)
    requires Honest(s1, deal) && Proper(t) && Answers(i, s1, t)
    ensures Finish(Rechecked(s1, t), t).wallet == Concluded(s1.wallet, s1.pc, i)
  {
    var s2 := Rechecked(s1, t);
    RecheckedIsHonest(s1, t, deal);
    FinishedAsAnswered(s2, t, deal);
    if s1.pc.Planned? {
      RecheckedAsJudged(s1, t, deal);
      RestOfPlannedStep(s1, s2, Finish(s2, t), i, t.second.entropy);
    }
  }

  lemma StepConcludes(w: Wallet, i: StepInput, w1: Wallet, pc: Pc)
    requires w.ctx.hashlock.Some? && w1.ctx.hashlock.Some? && (w1, pc) == Judged(w, i.first, Idle, i.entropy)
    ensures StepOf(w, i).wallet == Concluded(w1, pc, i)
  {}

  /**
   * The machine's steps are the executor's: same wallet, whatever the world did
   * meanwhile, whichever read failed, and whether or not the network told the truth.
   */
  lemma WholeStepIsStep(s: Sys, t: Turn, deal: SwapContext)
    requires Honest(s, deal) && s.pc.Idle? && Proper(t)
    ensures WholeStep(s, t).wallet == StepOf(s.wallet, InputOf(s, t)).wallet
  {
    var s1 := ObservedSys(s, t.first);
    ObserveIsHonest(s, t.first, deal);
    ObservedAsJudged(s, t.first);
    StepConcludes(s.wallet, InputOf(s, t), s1.wallet, s1.pc);
    RestOfStep(s1, t, InputOf(s, t), deal);
  }
}
