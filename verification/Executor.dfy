/** The side-effecting driver: observe, plan, observe again, compare, send. */
module Executor {
  import opened Primitives
  import opened Ledger
  import opened LedgerInvariants
  import opened Observer
  import opened StateMachine

  datatype ExecutorError =
    | MissingHashlock
    | MissingOwnContractId
    | MissingCounterpartyContractId
    | ZeroAmountTx
    | TxFailed
    | MaxStepsExceeded
    | ChainRead

  datatype StepOutcome =
    | GeneratedSecret
    | LockedMyLeg(contractId: Word)
    | RedeemedCounterpartyLeg
    | RefundedMyLeg
    | Waiting
    | Terminal
    | AbortedWith(reason: AbortReason)

  /** What the wallet asks the network to mine. */
  datatype TxRequest =
    | LockTx(recipient: Address, token: Address, amount: U128, hashlock: Word, timelock: U64)
    | RedeemTx(contractId: Word, secret: Word)
    | RefundTx(contractId: Word)

  datatype Wallet = Wallet(
    state: SwapState,
    ctx: SwapContext,
    own: ObserverState,
    cp: ObserverState,
    ownCid: Option<Word>,
    cpCid: Option<Word>,
    minConfirmations: nat)

  /** What one refresh reads; later reads may see later chains, and each but the clock may fail. */
  datatype View = View(
    now: U64, cpBlocks: Option<seq<seq<Event>>>, cpNode: Option<Node>, ownBlocks: Option<seq<seq<Event>>>)

  datatype Progress =
    | Stop(result: Result<StepOutcome, ExecutorError>)
    | Recheck(planned: NextAction)
    | Broadcast(tx: TxRequest)

  // -------- the step in its three parts --------

  /** The wallet after one refresh. A read that fails ends it; what was learned up to there stays. */
  ghost function Refreshed(w: Wallet, v: View): Wallet
    requires w.ctx.hashlock.Some?
  {
    var h := w.ctx.hashlock.value;
    var cp1, own1 := PolledBy(w.cp, v.cpBlocks), PolledBy(w.own, v.ownBlocks);
    var seen, secret := ObservedLeg(cp1, v.cpNode, h, w.minConfirmations), Revealed(own1, h);
    var w1 := w.(ctx := w.ctx.(now := v.now), cp := cp1);
    if v.cpBlocks.None? || seen.None? then w1
    else
      var w2 := w1.(ctx := w1.ctx.(counterpartyLock := seen.value.ForGate()), cpCid := Discover(cp1, h));
      if v.ownBlocks.None? then w2
      else
        w2.(ctx := w2.ctx.(revealedSecret := if secret.Some? then secret else w.ctx.revealedSecret,
                           myLegLocked := w.ownCid.Some? || w.ctx.myLegLocked),
            own := own1)
  }

  /** Every read of the refresh was answered. */
  ghost predicate Answered(w: Wallet, v: View)
    requires w.ctx.hashlock.Some?
  {
    && v.cpBlocks.Some? && v.ownBlocks.Some?
    && ObservedLeg(PolledBy(w.cp, v.cpBlocks), v.cpNode, w.ctx.hashlock.value, w.minConfirmations).Some?
  }

  /** After the first refresh: what the step is going to do. */
  function Plan(w: Wallet, entropy: Word): (Wallet, Progress) {
    match NextActionOf(w.state, w.ctx)
    case GenerateSecret =>
      var ctx := if w.ctx.secret.None? then w.ctx.(hashlock := Some(SHA256(entropy)), secret := Some(entropy)) else w.ctx;
      (w.(ctx := ctx, state := Advance(w.state, SecretMade)), Stop(Ok(GeneratedSecret)))
    case LockMyLeg(_, _, _, _, _) => (w, Recheck(NextActionOf(w.state, w.ctx)))
    case RedeemCounterpartyLeg(_) => (w, Recheck(NextActionOf(w.state, w.ctx)))
    case Refund =>
      if w.ctx.now < w.ctx.myTimelock then (w, Stop(Ok(Waiting)))
      else if w.ownCid.None? then (w, Stop(Err(MissingOwnContractId)))
      else (w, Broadcast(RefundTx(w.ownCid.value)))
    case WaitForCounterpartyLock => (w, Stop(Ok(Waiting)))
    case WaitForSecretReveal => (w, Stop(Ok(Waiting)))
    case VerifyLeg => (w, Stop(Ok(Waiting)))
    case Finished => (w, Stop(Ok(Terminal)))
    case Abort(r) => (w.(state := Aborted(r)), Stop(Ok(AbortedWith(r))))
  }

  /** `reverified_action_matches`. */
  predicate Matches(planned: NextAction, current: NextAction) {
    match (planned, current)
    case (LockMyLeg(r, t, a, h, l), LockMyLeg(r', t', a', h', l')) => r == r' && t == t' && a == a' && h == h' && l == l'
    case (RedeemCounterpartyLeg(s), RedeemCounterpartyLeg(s')) => s == s'
    case (Refund, Refund) => true
    case (_, _) => false
  }

  /** After the second refresh: send only if the plan still stands. */
  function Confirm(w: Wallet, planned: NextAction): (Wallet, Progress) {
    if !Matches(planned, NextActionOf(w.state, w.ctx)) then (w, Stop(Ok(Waiting)))
    else
      match planned
      case LockMyLeg(recipient, token, amount, hashlock, timelock) =>
        if w.ownCid.Some? then
          (w.(ctx := w.ctx.(myLegLocked := true), state := Advance(w.state, MyLegConfirmed)), Stop(Ok(Waiting)))
        else if amount == 0 then (w, Stop(Err(ZeroAmountTx)))
        else (w, Broadcast(LockTx(recipient, token, amount, hashlock, timelock)))
      case RedeemCounterpartyLeg(secret) =>
        if w.cpCid.None? then (w, Stop(Err(MissingCounterpartyContractId)))
        else (w, Broadcast(RedeemTx(w.cpCid.value, secret)))
      case _ => (w, Stop(Ok(Waiting)))
  }

  /** After the network answered: `mined` is the lock's id, or the id acted on. */
  function Complete(w: Wallet, tx: TxRequest, mined: Option<Word>): (Wallet, Result<StepOutcome, ExecutorError>) {
    if mined.None? then (w, Err(TxFailed))
    else
      match tx
      case LockTx(_, _, _, _, _) =>
        (w.(ownCid := mined, ctx := w.ctx.(myLegLocked := true), state := Advance(w.state, MyLegConfirmed)),
         Ok(LockedMyLeg(mined.value)))
      case RedeemTx(_, _) =>
        var state := if w.state == WaitingForSecret then Advance(w.state, SecretObserved) else w.state;
        (w.(state := Advance(state, RedeemConfirmed)), Ok(RedeemedCounterpartyLeg))
      case RefundTx(_) =>
        (w.(state := Advance(Refunding, RefundConfirmed)), Ok(RefundedMyLeg))
  }

  // -------- the whole step --------

  /** Everything one `step` takes from outside. */
  datatype StepInput = StepInput(first: View, entropy: Word, second: View, mined: Option<Word>)

  datatype StepResult = StepResult(wallet: Wallet, result: Result<StepOutcome, ExecutorError>, sent: Option<TxRequest>)

  /** Broadcast and take the network's answer. */
  function Sent(w: Wallet, tx: TxRequest, mined: Option<Word>): StepResult {
    var (w1, r) := Complete(w, tx, mined);
    StepResult(w1, r, Some(tx))
  }

  /** Re-observe, compare with the plan, send. */
  ghost function Act(w: Wallet, planned: NextAction, i: StepInput): StepResult
    requires w.ctx.hashlock.Some?
  {
    if !Answered(w, i.second) then StepResult(Refreshed(w, i.second), Err(ChainRead), None)
    else
      var (w1, p) := Confirm(Refreshed(w, i.second), planned);
      match p
      case Stop(r) => StepResult(w1, r, None)
      case Broadcast(tx) => Sent(w1, tx, i.mined)
      case Recheck(_) => StepResult(w1, Ok(Waiting), None)
  }

  ghost function StepOf(w: Wallet, i: StepInput): StepResult
  {
    if w.ctx.hashlock.None? then
      StepResult(w.(ctx := w.ctx.(now := i.first.now)), Err(ExecutorError.MissingHashlock), None)
    else if !Answered(w, i.first) then StepResult(Refreshed(w, i.first), Err(ChainRead), None)
    else
      var (w1, p) := Plan(Refreshed(w, i.first), i.entropy);
      match p
      case Stop(r) => StepResult(w1, r, None)
      case Broadcast(tx) => Sent(w1, tx, i.mined)
      case Recheck(planned) => Act(w1, planned, i)
  }

  predicate IsTerminal(state: SwapState) {
    state.Done? || state.Refunded? || state.CounterpartyRedeemed? || state.Aborted?
  }

  /** A step after which there is nothing left to do. */
  predicate IsLast(s: StepResult) {
    && s.result.Ok?
    && (s.result == Ok(Terminal) || s.result.value.AbortedWith?
        || s.wallet.state in {Done, Refunded, CounterpartyRedeemed} || s.wallet.state.Aborted?)
  }

  // -------- what a step sends and what it reports --------

  /** Both looks were answered, and the wallet decided `action` on each. */
  ghost predicate DecidedTwice(w: Wallet, i: StepInput, action: NextAction) {
    && w.ctx.hashlock.Some? && Answered(w, i.first)
    && var w1 := Refreshed(w, i.first);
       && NextActionOf(w1.state, w1.ctx) == action
       && Answered(w1, i.second)
       && var w2 := Refreshed(w1, i.second);
          NextActionOf(w2.state, w2.ctx) == action
  }

  /** `tx` is what the step should send: a lock or a redeem decided twice, a refund decided once and due. */
  ghost predicate Due(w: Wallet, i: StepInput, tx: TxRequest) {
    match tx
    case LockTx(recipient, token, amount, hashlock, timelock) =>
      && DecidedTwice(w, i, LockMyLeg(recipient, token, amount, hashlock, timelock))
      && w.ownCid.None? && amount > 0
    case RedeemTx(cid, secret) =>
      && DecidedTwice(w, i, NextAction.RedeemCounterpartyLeg(secret))
      && Refreshed(Refreshed(w, i.first), i.second).cpCid == Some(cid)
    case RefundTx(cid) =>
      && w.ctx.hashlock.Some? && Answered(w, i.first)
      && var w1 := Refreshed(w, i.first);
         NextActionOf(w1.state, w1.ctx).Refund? && w1.ctx.myTimelock <= i.first.now && w.ownCid == Some(cid)
  }

  lemma MatchingMeansEqual(planned: NextAction, current: NextAction)
    ensures Matches(planned, current) <==>
      planned == current && (planned.LockMyLeg? || planned.RedeemCounterpartyLeg? || planned.Refund?)
  {}

  /**
   * A refresh touches neither the state nor what the wallet made itself; answered,
   * it has read both logs to their heads.
   */
  lemma RefreshKeepsOwn(w: Wallet, v: View)
    requires w.ctx.hashlock.Some?
    ensures var w1 := Refreshed(w, v);
      && w1.state == w.state && w1.ownCid == w.ownCid && w1.ctx.secret == w.ctx.secret && w1.ctx.hashlock == w.ctx.hashlock
      && w1.ctx.now == v.now && w1.ctx.myTimelock == w.ctx.myTimelock
      && (Answered(w, v) ==> (w1.ctx.myLegLocked <==> w.ctx.myLegLocked || w.ownCid.Some?))
      && (Answered(w, v) ==> |v.ownBlocks.value| <= w1.own.nextBlock && |v.cpBlocks.value| <= w1.cp.nextBlock)
  {}

  /** A step sends exactly what is due, and nothing when nothing is. */
  lemma StepSendsWhatIsDue(w: Wallet, i: StepInput, tx: TxRequest)
    ensures StepOf(w, i).sent == Some(tx) <==> Due(w, i, tx)
  {
    if w.ctx.hashlock.Some? && Answered(w, i.first) {
      var w1 := Refreshed(w, i.first);
      RefreshKeepsOwn(w, i.first);
      PlanSends(w1, i.entropy, tx);
      StepIsPlanThenAct(w, w1, i, tx);
      if NextActionOf(w1.state, w1.ctx).LockMyLeg? || NextActionOf(w1.state, w1.ctx).RedeemCounterpartyLeg? {
        RefreshKeepsOwn(w1, i.second);
        ConfirmSends(Refreshed(w1, i.second), NextActionOf(w1.state, w1.ctx), tx);
        ActSends(w1, NextActionOf(w1.state, w1.ctx), i, tx);
      }
    }
  }

  lemma StepIsPlanThenAct(w: Wallet, w1: Wallet, i: StepInput, tx: TxRequest)
    requires w.ctx.hashlock.Some? && Answered(w, i.first) && w1 == Refreshed(w, i.first)
    ensures var p := Plan(w1, i.entropy).1;
      StepOf(w, i).sent == Some(tx) <==>
        p == Broadcast(tx) || (p.Recheck? && Act(w1, p.planned, i).sent == Some(tx))
  {
    PlanReports(w1, i);
  }

  lemma PlanSends(w: Wallet, entropy: Word, tx: TxRequest)
    ensures var (p, action) := (Plan(w, entropy).1, NextActionOf(w.state, w.ctx));
      && (p == Broadcast(tx) <==>
            tx.RefundTx? && action.Refund? && w.ctx.myTimelock <= w.ctx.now && w.ownCid == Some(tx.contractId))
      && (p.Recheck? <==> action.LockMyLeg? || action.RedeemCounterpartyLeg?)
      && (p.Recheck? ==> p.planned == action)
  {}

  lemma ActSends(w: Wallet, planned: NextAction, i: StepInput, tx: TxRequest)
    requires w.ctx.hashlock.Some?
    ensures Act(w, planned, i).sent == Some(tx) <==>
      Answered(w, i.second) && Confirm(Refreshed(w, i.second), planned).1 == Broadcast(tx)
  {}

  lemma ConfirmSends(w: Wallet, planned: NextAction, tx: TxRequest)
    ensures Confirm(w, planned).1 == Broadcast(tx) <==>
      && planned == NextActionOf(w.state, w.ctx)
      && match tx
         case LockTx(r, t, a, h, l) => planned == LockMyLeg(r, t, a, h, l) && w.ownCid.None? && a > 0
         case RedeemTx(cid, secret) => planned == NextAction.RedeemCounterpartyLeg(secret) && w.cpCid == Some(cid)
         case RefundTx(_) => false
  {
    MatchingMeansEqual(planned, NextActionOf(w.state, w.ctx));
  }

  /** The state to be in once the own leg is locked. */
  function OnceLocked(state: SwapState): SwapState {
    if state.Start? then WaitingForSecret else MyLegLocked
  }

  /** The report of a step that sent `tx`, given the network's answer, and where it leaves the wallet. */
  predicate Reported(was: SwapState, tx: TxRequest, answer: Option<Word>, s: StepResult) {
    if answer.None? then s.result == Err(TxFailed) && s.wallet.state == was
    else
      match tx
      case LockTx(_, _, _, _, _) =>
        && s.result == Ok(LockedMyLeg(answer.value)) && s.wallet.ownCid == answer && s.wallet.ctx.myLegLocked
        && s.wallet.state == OnceLocked(was)
      case RedeemTx(_, _) => s.result == Ok(StepOutcome.RedeemedCounterpartyLeg) && s.wallet.state == CounterpartyRedeemed
      case RefundTx(_) => s.result == Ok(RefundedMyLeg) && s.wallet.state == Refunded
  }

  /** The report of a step that sent nothing: no transaction is claimed, and an end or an abort is one in the state too. */
  predicate ReportedQuiet(w: Wallet, i: StepInput, s: StepResult) {
    match s.result
    case Err(e) => !e.TxFailed? && s.wallet.state == w.state
    case Ok(GeneratedSecret) =>
      && w.state == Start && s.wallet.state == SecretGenerated
      && (w.ctx.secret.None? ==> s.wallet.ctx.secret == Some(i.entropy) && s.wallet.ctx.hashlock == Some(SHA256(i.entropy)))
      && (w.ctx.secret.Some? ==> s.wallet.ctx.secret == w.ctx.secret && s.wallet.ctx.hashlock == w.ctx.hashlock)
    case Ok(Waiting) => s.wallet.state == w.state || (s.wallet.ownCid.Some? && s.wallet.ctx.myLegLocked)
    case Ok(Terminal) => s.wallet.state == w.state && w.state in {Done, Refunded, CounterpartyRedeemed}
    case Ok(AbortedWith(why)) => s.wallet.state == Aborted(why)
    case Ok(_) => false
  }

  lemma SentIsReported(w: Wallet, tx: TxRequest, answer: Option<Word>)
    requires tx.LockTx? ==> w.state.Start? || w.state.SecretGenerated?
    requires tx.RedeemTx? ==> w.state.MyLegLocked? || w.state.WaitingForSecret? || w.state.SecretLearned?
    ensures Reported(w.state, tx, answer, Sent(w, tx, answer))
  {}

  /** Only in these states does a wallet lock or redeem. */
  lemma ActsInState(state: SwapState, ctx: SwapContext)
    ensures NextActionOf(state, ctx).LockMyLeg? ==> state.Start? || state.SecretGenerated?
    ensures NextActionOf(state, ctx).RedeemCounterpartyLeg? ==>
      state.MyLegLocked? || state.WaitingForSecret? || state.SecretLearned?
  {}

  lemma PlanReports(w: Wallet, i: StepInput)
    ensures var (w1, p) := Plan(w, i.entropy);
      && (p.Stop? ==> ReportedQuiet(w, i, StepResult(w1, p.result, None)))
      && (!p.Stop? ==> w1 == w)
      && (p.Broadcast? ==> p.tx.RefundTx?)
      && (p.Recheck? ==> p.planned == NextActionOf(w.state, w.ctx))
  {}

  lemma ConfirmReports(w: Wallet, planned: NextAction, i: StepInput)
    ensures var (w1, p) := Confirm(w, planned);
      && (p.Stop? ==> ReportedQuiet(w, i, StepResult(w1, p.result, None)))
      && (!p.Stop? ==> w1 == w && p.Broadcast? && !p.tx.RefundTx? && planned == NextActionOf(w.state, w.ctx))
      && (p.Broadcast? ==> (p.tx.LockTx? <==> planned.LockMyLeg?))
  {
    MatchingMeansEqual(planned, NextActionOf(w.state, w.ctx));
  }

  lemma ActReports(w: Wallet, planned: NextAction, i: StepInput)
    requires w.ctx.hashlock.Some? && Answered(w, i.second)
    ensures var s := Act(w, planned, i);
      if s.sent.Some? then Reported(w.state, s.sent.value, i.mined, s)
      else ReportedQuiet(Refreshed(w, i.second), i, s)
  {
    var w1 := Refreshed(w, i.second);
    ConfirmReports(w1, planned, i);
    ActsInState(w1.state, w1.ctx);
    var p := Confirm(w1, planned).1;
    if p.Broadcast? {
      SentIsReported(w1, p.tx, i.mined);
    }
  }

  lemma QuietFromLater(w: Wallet, w1: Wallet, i: StepInput, s: StepResult)
    requires w1.state == w.state && w1.ctx.secret == w.ctx.secret && w1.ctx.hashlock == w.ctx.hashlock
    requires ReportedQuiet(w1, i, s)
    ensures ReportedQuiet(w, i, s)
  {}

  /**
   * What the caller of a step is told is what happened: a lock, redeem or refund is
   * reported exactly when such a transaction was sent and answered, a failed one
   * leaves the state to be tried again, and without a transaction none is claimed.
   */
  lemma StepReportsWhatHappened(w: Wallet, i: StepInput)
    ensures var s := StepOf(w, i);
      if s.sent.Some? then Reported(w.state, s.sent.value, i.mined, s) else ReportedQuiet(w, i, s)
  {
    if w.ctx.hashlock.Some? {
      RefreshKeepsOwn(w, i.first);
      var w1 := Refreshed(w, i.first);
      PlanReports(w1, i);
      if Answered(w, i.first) {
        match Plan(w1, i.entropy).1
        case Stop(_) => QuietFromLater(w, w1, i, StepOf(w, i));
        case Broadcast(tx) => SentIsReported(w1, tx, i.mined);
        case Recheck(planned) => RecheckReports(w1, planned, i);
      }
    }
  }

  lemma RecheckReports(w: Wallet, planned: NextAction, i: StepInput)
    requires w.ctx.hashlock.Some?
    ensures var s := Act(w, planned, i);
      if s.sent.Some? then Reported(w.state, s.sent.value, i.mined, s) else ReportedQuiet(w, i, s)
  {
    RefreshKeepsOwn(w, i.second);
    if Answered(w, i.second) {
      ActReports(w, planned, i);
      if Act(w, planned, i).sent.None? {
        QuietFromLater(w, Refreshed(w, i.second), i, Act(w, planned, i));
      }
    }
  }

  /** When each result is the one to return. */
  ghost predicate Means(w: Wallet, i: StepInput, r: Result<StepOutcome, ExecutorError>) {
    if w.ctx.hashlock.None? then r == Err(ExecutorError.MissingHashlock)
    else if !Answered(w, i.first) then r == Err(ChainRead)
    else
      var w1 := Refreshed(w, i.first);
      var action := NextActionOf(w1.state, w1.ctx);
      match action
      case GenerateSecret => r == Ok(GeneratedSecret)
      case Finished => r == Ok(Terminal)
      case Abort(why) => r == Ok(AbortedWith(why))
      case Refund =>
        if w1.ctx.now < w1.ctx.myTimelock then r == Ok(Waiting)
        else if w.ownCid.None? then r == Err(MissingOwnContractId)
        else r == if i.mined.Some? then Ok(RefundedMyLeg) else Err(TxFailed)
      case LockMyLeg(_, _, amount, _, _) =>
        if !Answered(w1, i.second) then r == Err(ChainRead)
        else if !DecidedTwice(w, i, action) || w.ownCid.Some? then r == Ok(Waiting)
        else if amount == 0 then r == Err(ZeroAmountTx)
        else r == if i.mined.Some? then Ok(LockedMyLeg(i.mined.value)) else Err(TxFailed)
      case RedeemCounterpartyLeg(_) =>
        if !Answered(w1, i.second) then r == Err(ChainRead)
        else if !DecidedTwice(w, i, action) then r == Ok(Waiting)
        else if Refreshed(w1, i.second).cpCid.None? then r == Err(MissingCounterpartyContractId)
        else r == if i.mined.Some? then Ok(StepOutcome.RedeemedCounterpartyLeg) else Err(TxFailed)
      case _ => r == Ok(Waiting)
  }

  /** Every step returns what its reads, its two decisions and the network's answer call for. */
  lemma StepReturnsExactly(w: Wallet, i: StepInput, r: Result<StepOutcome, ExecutorError>)
    ensures StepOf(w, i).result == r <==> Means(w, i, r)
  {
    if w.ctx.hashlock.Some? && Answered(w, i.first) {
      RefreshKeepsOwn(w, i.first);
      var w1 := Refreshed(w, i.first);
      PlanReturns(w1, i);
      var p := Plan(w1, i.entropy).1;
      if p.Recheck? && Answered(w1, i.second) {
        RefreshKeepsOwn(w1, i.second);
        ConfirmReturns(Refreshed(w1, i.second), p.planned, i.mined);
      }
    }
  }

  lemma PlanReturns(w: Wallet, i: StepInput)
    ensures var ((w1, p), action) := (Plan(w, i.entropy), NextActionOf(w.state, w.ctx));
      match action
      case GenerateSecret => p == Stop(Ok(GeneratedSecret))
      case Finished => p == Stop(Ok(Terminal))
      case Abort(why) => p == Stop(Ok(AbortedWith(why)))
      case Refund =>
        if w.ctx.now < w.ctx.myTimelock then p == Stop(Ok(Waiting))
        else if w.ownCid.None? then p == Stop(Err(MissingOwnContractId))
        else p.Broadcast? && Sent(w1, p.tx, i.mined).result == if i.mined.Some? then Ok(RefundedMyLeg) else Err(TxFailed)
      case LockMyLeg(_, _, _, _, _) => w1 == w && p == Recheck(action)
      case RedeemCounterpartyLeg(_) => w1 == w && p == Recheck(action)
      case _ => p == Stop(Ok(Waiting))
  {}

  function AnswerTo(planned: NextAction, mined: Option<Word>): Result<StepOutcome, ExecutorError> {
    if mined.None? then Err(TxFailed)
    else if planned.LockMyLeg? then Ok(LockedMyLeg(mined.value))
    else Ok(StepOutcome.RedeemedCounterpartyLeg)
  }

  lemma ConfirmReturns(w: Wallet, planned: NextAction, mined: Option<Word>)
    requires planned.LockMyLeg? || planned.RedeemCounterpartyLeg?
    ensures var (w1, p) := Confirm(w, planned);
      if planned != NextActionOf(w.state, w.ctx) || (planned.LockMyLeg? && w.ownCid.Some?) then p == Stop(Ok(Waiting))
      else if planned.LockMyLeg? && planned.amount == 0 then p == Stop(Err(ZeroAmountTx))
      else if planned.RedeemCounterpartyLeg? && w.cpCid.None? then p == Stop(Err(MissingCounterpartyContractId))
      else p.Broadcast? && Sent(w1, p.tx, mined).result == AnswerTo(planned, mined)
  {
    MatchingMeansEqual(planned, NextActionOf(w.state, w.ctx));
  }

  /**
   * A step that waits leaves the state alone, with one exception: a wallet that is
   * to lock, on both looks, but knows its own lock already goes on as if it had
   * just made it, and sends nothing.
   */
  lemma KnownLockIsNotMadeAgain(w: Wallet, i: StepInput)
    requires w.ctx.hashlock.Some? && Answered(w, i.first) && StepOf(w, i).result == Ok(Waiting)
    ensures var w1 := Refreshed(w, i.first);
      var action := NextActionOf(w1.state, w1.ctx);
      && StepOf(w, i).wallet.state == (if action.LockMyLeg? && DecidedTwice(w, i, action) then OnceLocked(w.state) else w.state)
      && (action.LockMyLeg? && DecidedTwice(w, i, action) ==> w.ownCid.Some? && StepOf(w, i).wallet.ownCid == w.ownCid)
  {
    var w1 := Refreshed(w, i.first);
    RefreshKeepsOwn(w, i.first);
    StepReturnsExactly(w, i, Ok(Waiting));
    PlanReports(w1, i);
    var p := Plan(w1, i.entropy).1;
    if p.Recheck? && Answered(w1, i.second) {
      var w2 := Refreshed(w1, i.second);
      RefreshKeepsOwn(w1, i.second);
      ActsInState(w2.state, w2.ctx);
      ConfirmWaits(w2, p.planned);
      PlanReturns(w1, i);
    }
  }

  lemma ConfirmWaits(w: Wallet, planned: NextAction)
    requires Confirm(w, planned).1 == Stop(Ok(Waiting)) && (planned.LockMyLeg? || planned.RedeemCounterpartyLeg?)
    requires planned.LockMyLeg? ==> w.state.Start? || w.state.SecretGenerated? || planned != NextActionOf(w.state, w.ctx)
    ensures var w1 := Confirm(w, planned).0;
      && w1.ownCid == w.ownCid
      && w1.state == if planned.LockMyLeg? && planned == NextActionOf(w.state, w.ctx) then OnceLocked(w.state) else w.state
  {
    MatchingMeansEqual(planned, NextActionOf(w.state, w.ctx));
  }

  // -------- where a run stops --------

  /** The wallet after the first `k` of these steps. */
  function WalletAt(w: Wallet, steps: seq<StepResult>, k: nat): Wallet
    requires k <= |steps|
  {
    if k == 0 then w else steps[k - 1].wallet
  }

  /** All the steps these inputs give, one after another, whatever they return. */
  ghost function StepsOf(w: Wallet, inputs: seq<StepInput>): (steps: seq<StepResult>)
    ensures |steps| == |inputs|
  {
    if inputs == [] then []
    else
      var n := |inputs| - 1;
      var steps := StepsOf(w, inputs[..n]);
      steps + [StepOf(WalletAt(w, steps, n), inputs[n])]
  }

  lemma {:induction false} StepsFollow(w: Wallet, inputs: seq<StepInput>, k: nat)
    requires k < |inputs|
    ensures StepsOf(w, inputs)[k] == StepOf(WalletAt(w, StepsOf(w, inputs), k), inputs[k])
  {
    var n := |inputs| - 1;
    if k < n {
      StepsFollow(w, inputs[..n], k);
      StepsBefore(w, inputs, k);
    }
  }

  lemma StepsBefore(w: Wallet, inputs: seq<StepInput>, k: nat)
    requires k < |inputs| - 1
    ensures StepsOf(w, inputs)[k] == StepsOf(w, inputs[..|inputs| - 1])[k]
    ensures WalletAt(w, StepsOf(w, inputs), k) == WalletAt(w, StepsOf(w, inputs[..|inputs| - 1]), k)
  {}

  predicate Stops(s: StepResult) { s.result.Err? || IsLast(s) }

  /** The first `k` steps all succeed and none of them is the last. */
  ghost predicate GoesOn(steps: seq<StepResult>, k: nat)
    requires k <= |steps|
  {
    forall i: nat :: i < k ==> !Stops(steps[i])
  }

  /**
   * What a run of these steps has to return: the error of the first that fails,
   * the state of the first that ends the swap, or that the steps ran out.
   */
  ghost predicate StopsAtFirst(w: Wallet, steps: seq<StepResult>, w1: Wallet, r: Result<SwapState, ExecutorError>) {
    && (forall k: nat :: k < |steps| && GoesOn(steps, k) && steps[k].result.Err? ==>
          r == Err(steps[k].result.error) && w1 == steps[k].wallet)
    && (forall k: nat :: k < |steps| && GoesOn(steps, k) && IsLast(steps[k]) ==>
          r == Ok(steps[k].wallet.state) && w1 == steps[k].wallet)
    && (r == Err(MaxStepsExceeded) <==> GoesOn(steps, |steps|))
    && (GoesOn(steps, |steps|) ==> w1 == WalletAt(w, steps, |steps|))
  }

  lemma NoStepRunsOut(w: Wallet, i: StepInput)
    ensures StepOf(w, i).result != Err(MaxStepsExceeded)
  {
    StepReturnsExactly(w, i, Err(MaxStepsExceeded));
  }

  lemma LastStepEndsInTerminalState(w: Wallet, i: StepInput)
    requires IsLast(StepOf(w, i))
    ensures IsTerminal(StepOf(w, i).wallet.state)
  {
    StepReportsWhatHappened(w, i);
  }

  lemma StopsHere(w: Wallet, steps: seq<StepResult>, n: nat)
    requires n < |steps| && GoesOn(steps, n) && Stops(steps[n]) && steps[n].result != Err(MaxStepsExceeded)
    ensures steps[n].result.Err? ==> StopsAtFirst(w, steps, steps[n].wallet, Err(steps[n].result.error))
    ensures steps[n].result.Ok? ==> StopsAtFirst(w, steps, steps[n].wallet, Ok(steps[n].wallet.state))
  {
    assert forall k: nat :: k <= |steps| && GoesOn(steps, k) && (k < |steps| ==> Stops(steps[k])) ==> k == n;
  }

  lemma RunsOut(w: Wallet, steps: seq<StepResult>)
    requires GoesOn(steps, |steps|)
    ensures StopsAtFirst(w, steps, WalletAt(w, steps, |steps|), Err(MaxStepsExceeded))
  {}

  /** What is read continues, on an append-only chain, what the observer has read so far. */
  ghost predicate Extends(o: ObserverState, read: Option<seq<seq<Event>>>) {
    read.Some? ==> read.value != [] && InStep(o, read.value) && WellFormedLog(Flatten(read.value))
  }

  ghost predicate Continues(w: Wallet, v: View) {
    Extends(w.cp, v.cpBlocks) && Extends(w.own, v.ownBlocks)
  }

  /** The second read, where both are answered, sees at least what the first one saw. */
  predicate Later(first: Option<seq<seq<Event>>>, second: Option<seq<seq<Event>>>) {
    first.Some? && second.Some? ==> first.value <= second.value
  }

  ghost predicate StepContinues(w: Wallet, i: StepInput) {
    && Continues(w, i.first)
    && Continues(w, i.second)
    && Later(i.first.cpBlocks, i.second.cpBlocks) && Later(i.first.ownBlocks, i.second.ownBlocks)
  }

  ghost predicate RunContinues(w: Wallet, inputs: seq<StepInput>)
    decreases |inputs|
  {
    inputs != [] ==>
      && StepContinues(w, inputs[0])
      && (StepOf(w, inputs[0]).result.Ok? ==> RunContinues(StepOf(w, inputs[0]).wallet, inputs[1..]))
  }

  lemma RunContinuesOn(w: Wallet, inputs: seq<StepInput>, n: nat)
    requires n < |inputs| && RunContinues(w, inputs[n..])
    ensures StepContinues(w, inputs[n])
    ensures StepOf(w, inputs[n]).result.Ok? ==> RunContinues(StepOf(w, inputs[n]).wallet, inputs[n + 1..])
  {
    assert inputs[n..][0] == inputs[n] && inputs[n..][1..] == inputs[n + 1..];
  }

  lemma PollExtends(o: ObserverState, read: Option<seq<seq<Event>>>, later: Option<seq<seq<Event>>>)
    requires Extends(o, read) && Extends(o, later) && Later(read, later)
    ensures Extends(PolledBy(o, read), later)
  {
    if read.Some? && later.Some? {
      PolledIsInStep(o, read.value);
      InStepLater(Polled(o, read.value), read.value, later.value);
    }
  }

  lemma RefreshContinues(w: Wallet, v: View, later: View)
    requires w.ctx.hashlock.Some? && Continues(w, v) && Continues(w, later)
    requires Later(v.cpBlocks, later.cpBlocks) && Later(v.ownBlocks, later.ownBlocks)
    ensures Continues(Refreshed(w, v), later)
  {
    PollExtends(w.cp, v.cpBlocks, later.cpBlocks);
    PollExtends(w.own, v.ownBlocks, later.ownBlocks);
  }

  // -------- the executor --------

  class WalletExecutor {
    var state: SwapState
    var ctx: SwapContext
    const ownObserver: CounterpartyObserver
    const counterpartyObserver: CounterpartyObserver
    const minConfirmations: nat
    var ownContractId: Option<Word>
    var counterpartyContractId: Option<Word>

    constructor (state: SwapState, ctx: SwapContext, ownObserver: CounterpartyObserver,
                 counterpartyObserver: CounterpartyObserver, minConfirmations: nat)
      requires ownObserver != counterpartyObserver && ownObserver.tracker != counterpartyObserver.tracker
      ensures Valid() && State() == Wallet(state, ctx, ownObserver.State(), counterpartyObserver.State(), None, None, minConfirmations)
    {
      this.state, this.ctx := state, ctx;
      this.ownObserver, this.counterpartyObserver := ownObserver, counterpartyObserver;
      this.minConfirmations := minConfirmations;
      ownContractId, counterpartyContractId := None, None;
    }

    ghost predicate Valid() {
      ownObserver != counterpartyObserver && ownObserver.tracker != counterpartyObserver.tracker
    }

    ghost function Repr(): set<object> {
      {this, ownObserver, ownObserver.tracker, counterpartyObserver, counterpartyObserver.tracker}
    }

    ghost function State(): Wallet
      reads Repr()
    {
      Wallet(state, ctx, ownObserver.State(), counterpartyObserver.State(),
             ownContractId, counterpartyContractId, minConfirmations)
    }

    method RefreshObservations(v: View) returns (r: Result<(), ExecutorError>)
      requires Valid() && Continues(State(), v)
      modifies Repr()
      ensures old(ctx).hashlock.None? ==>
        r == Err(ExecutorError.MissingHashlock) && State() == old(State()).(ctx := old(ctx).(now := v.now))
      ensures old(ctx).hashlock.Some? ==>
        State() == Refreshed(old(State()), v)
        && r == if old(Answered(State(), v)) then Ok(()) else Err(ChainRead)
    {
      ctx := ctx.(now := v.now);
      if ctx.hashlock.None? { return Err(ExecutorError.MissingHashlock); }
      var hashlock := ctx.hashlock.value;

      if v.cpBlocks.Some? { OwnLogIsReadable(counterpartyObserver.State(), v.cpBlocks.value); }
      var cp := counterpartyObserver.Observe(v.cpBlocks, v.cpNode, hashlock, minConfirmations);
      if cp.None? { return Err(ChainRead); }
      ctx := ctx.(counterpartyLock := cp.value.ForGate());
      counterpartyContractId := counterpartyObserver.DiscoverContractId(hashlock);

      if v.ownBlocks.Some? { OwnLogIsReadable(ownObserver.State(), v.ownBlocks.value); }
      var polled := ownObserver.Poll(v.ownBlocks);
      if !polled { return Err(ChainRead); }
      var secret := ownObserver.RevealedSecret(hashlock);
      if secret.Some? {
        ctx := ctx.(revealedSecret := secret);
      }
      if ownContractId.Some? {
        ctx := ctx.(myLegLocked := true);
      }
      return Ok(());
    }

    method ReverifiedAction(v: View) returns (r: Result<NextAction, ExecutorError>)
      requires Valid() && Continues(State(), v) && ctx.hashlock.Some?
      modifies Repr()
      ensures State() == Refreshed(old(State()), v)
      ensures r == if old(Answered(State(), v)) then Ok(NextActionOf(State().state, State().ctx)) else Err(ChainRead)
    {
      var refreshed := RefreshObservations(v);
      if refreshed.Err? { return Err(refreshed.error); }
      return Ok(NextActionOf(state, ctx));
    }

    method LockMyLeg(planned: NextAction, i: StepInput) returns (r: Result<StepOutcome, ExecutorError>, sent: Option<TxRequest>)
      requires Valid() && Continues(State(), i.second) && ctx.hashlock.Some? && planned.LockMyLeg?
      modifies Repr()
      ensures StepResult(State(), r, sent) == Act(old(State()), planned, i)
    {
      sent := None;
      var current := ReverifiedAction(i.second);
      if current.Err? { return Err(current.error), None; }
      if !Matches(planned, current.value) { return Ok(Waiting), None; }
      if ownContractId.Some? {
        ctx := ctx.(myLegLocked := true);
        state := Advance(state, MyLegConfirmed);
        return Ok(Waiting), None;
      }
      if planned.amount == 0 { return Err(ZeroAmountTx), None; }
      sent := Some(LockTx(planned.recipient, planned.token, planned.amount, planned.hashlock, planned.timelock));
      if i.mined.None? { return Err(TxFailed), sent; }
      ownContractId := i.mined;
      ctx := ctx.(myLegLocked := true);
      state := Advance(state, MyLegConfirmed);
      return Ok(LockedMyLeg(i.mined.value)), sent;
    }

    method RedeemCounterpartyLeg(planned: NextAction, i: StepInput) returns (r: Result<StepOutcome, ExecutorError>, sent: Option<TxRequest>)
      requires Valid() && Continues(State(), i.second) && ctx.hashlock.Some? && planned.RedeemCounterpartyLeg?
      modifies Repr()
      ensures StepResult(State(), r, sent) == Act(old(State()), planned, i)
    {
      sent := None;
      var current := ReverifiedAction(i.second);
      if current.Err? { return Err(current.error), None; }
      if !Matches(planned, current.value) { return Ok(Waiting), None; }
      if counterpartyContractId.None? { return Err(MissingCounterpartyContractId), None; }
      sent := Some(RedeemTx(counterpartyContractId.value, planned.secret));
      if i.mined.None? { return Err(TxFailed), sent; }
      if state == WaitingForSecret {
        state := Advance(state, SecretObserved);
      }
      state := Advance(state, RedeemConfirmed);
      return Ok(RedeemedCounterpartyLeg), sent;
    }

    method RefundMyLeg(i: StepInput) returns (r: Result<StepOutcome, ExecutorError>, sent: Option<TxRequest>)
      requires Valid() && NextActionOf(state, ctx).Refund?
      modifies this
      ensures match Plan(old(State()), i.entropy).1
        case Stop(r') => StepResult(State(), r, sent) == StepResult(old(State()), r', None)
        case Broadcast(tx) => StepResult(State(), r, sent) == Sent(old(State()), tx, i.mined)
        case Recheck(_) => false
    {
      sent := None;
      if ctx.now < ctx.myTimelock { return Ok(Waiting), None; }
      if ownContractId.None? { return Err(MissingOwnContractId), None; }
      sent := Some(RefundTx(ownContractId.value));
      if i.mined.None? { return Err(TxFailed), sent; }
      state := Advance(Refunding, RefundConfirmed);
      return Ok(RefundedMyLeg), sent;
    }

    method Step(i: StepInput) returns (r: Result<StepOutcome, ExecutorError>, sent: Option<TxRequest>)
      requires Valid() && StepContinues(State(), i)
      modifies Repr()
      ensures StepResult(State(), r, sent) == StepOf(old(State()), i)
    {
      sent := None;
      if ctx.hashlock.Some? {
        RefreshContinues(State(), i.first, i.second);
      }
      var refreshed := RefreshObservations(i.first);
      if refreshed.Err? { return Err(refreshed.error), None; }
      var planned := NextActionOf(state, ctx);

      match planned
      case GenerateSecret =>
        if ctx.secret.None? {
          ctx := ctx.(hashlock := Some(SHA256(i.entropy)), secret := Some(i.entropy));
        }
        state := Advance(state, SecretMade);
        return Ok(GeneratedSecret), None;
      case LockMyLeg(_, _, _, _, _) => r, sent := LockMyLeg(planned, i);
      case RedeemCounterpartyLeg(_) => r, sent := RedeemCounterpartyLeg(planned, i);
      case Refund => r, sent := RefundMyLeg(i);
      case WaitForCounterpartyLock => return Ok(Waiting), None;
      case WaitForSecretReveal => return Ok(Waiting), None;
      case VerifyLeg => return Ok(Waiting), None;
      case Finished => return Ok(Terminal), None;
      case Abort(reason) =>
        state := Aborted(reason);
        return Ok(AbortedWith(reason)), None;
    }

    /** Step `n` of a run that began in `start`. */
    method StepInRun(ghost start: Wallet, ghost steps: seq<StepResult>, inputs: seq<StepInput>, n: nat)
      returns (step: Result<StepOutcome, ExecutorError>)
      requires Valid() && n < |inputs| && RunContinues(State(), inputs[n..])
      requires steps == StepsOf(start, inputs) && State() == WalletAt(start, steps, n)
      modifies Repr()
      ensures State() == steps[n].wallet && step == steps[n].result && step != Err(MaxStepsExceeded)
      ensures step.Ok? ==> RunContinues(State(), inputs[n + 1..])
      ensures IsLast(steps[n]) ==> IsTerminal(state)
    {
      ghost var w := State();
      StepsFollow(start, inputs, n);
      RunContinuesOn(w, inputs, n);
      NoStepRunsOut(w, inputs[n]);
      if IsLast(StepOf(w, inputs[n])) {
        LastStepEndsInTerminalState(w, inputs[n]);
      }
      var r, sent := Step(inputs[n]);
      assert StepResult(State(), r, sent) == steps[n];
      return r;
    }

    /** `run`: at most `|inputs|` steps, and success only in a terminal state. */
    method Run(inputs: seq<StepInput>) returns (r: Result<SwapState, ExecutorError>)
      requires Valid() && RunContinues(State(), inputs)
      modifies Repr()
      ensures StopsAtFirst(old(State()), StepsOf(old(State()), inputs), State(), r)
      ensures r.Ok? ==> r.value == state && IsTerminal(state)
    {
      ghost var start, steps := State(), StepsOf(State(), inputs);
      var n := 0;
      assert inputs[0..] == inputs;
      while n < |inputs|
        invariant 0 <= n <= |inputs|
        invariant RunContinues(State(), inputs[n..])
        invariant State() == WalletAt(start, steps, n) && GoesOn(steps, n)
      {
        var step := StepInRun(start, steps, inputs, n);
        if Stops(steps[n]) {
          StopsHere(start, steps, n);
        }
        if step.Err? { return Err(step.error); }
        if step.value.Terminal? || step.value.AbortedWith? || IsTerminal(state) {
          return Ok(state);
        }
        n := n + 1;
      }
      RunsOut(start, steps);
      return Err(MaxStepsExceeded);
    }
  }
}
