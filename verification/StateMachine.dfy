/** The pure decision core of one party's swap. */
module StateMachine {
  import opened Primitives
  import opened Verify

  datatype AbortReason =
    | UnsafeCounterparty(reason: UnsafeReason)
    | MissingSecret
    | MissingHashlock
    | VerificationFailed
    | InvalidState
    | InvalidTransition

  datatype SwapState =
    | Start
    | SecretGenerated
    | MyLegLocked
    | WaitingForSecret
    | SecretLearned
    | CounterpartyRedeemed
    | Done
    | Refunding
    | Refunded
    | Aborted(why: AbortReason)

  datatype NextAction =
    | GenerateSecret
    | LockMyLeg(recipient: Address, token: Address, amount: U128, hashlock: Word, timelock: U64)
    | VerifyLeg
    | RedeemCounterpartyLeg(secret: Word)
    | WaitForCounterpartyLock
    | WaitForSecretReveal
    | Refund
    | Finished
    | Abort(reason: AbortReason)

  datatype SwapEvent =
    | SecretMade
    | MyLegConfirmed
    | CounterpartyLockObserved
    | VerificationFails
    | SecretObserved
    | TimelockExpired
    | RedeemConfirmed
    | RefundConfirmed

  datatype SwapContext = SwapContext(
    role: Role,
    myToken: Address,
    myAmount: U128,
    myTimelock: U64,
    myRecipient: Address,
    cpToken: Address,
    cpAmount: U128,
    me: Address,
    minGap: U64,
    hashlock: Option<Word>,
    secret: Option<Word>,
    myLegLocked: bool,
    counterpartyLock: Option<ObservedLock>,
    revealedSecret: Option<Word>,
    now: U64)
  {
    function Expectation(): LegExpectation {
      LegExpectation(
        if hashlock.Some? then hashlock.value else 0,
        cpToken, cpAmount, me, myTimelock, minGap, now, role)
    }

    function Lock(h: Word): NextAction {
      LockMyLeg(myRecipient, myToken, myAmount, h, myTimelock)
    }

    /** The other leg has been seen and is safe right now. */
    predicate SeesSafeLeg() {
      counterpartyLock.Some? && VerifyCounterpartyLeg(Expectation(), counterpartyLock.value) == Safe
    }
  }

  function NextActionOf(state: SwapState, ctx: SwapContext): NextAction {
    match state
    case Aborted(r) => Abort(r)
    case Done => Finished
    case Refunded => Finished
    case Refunding => Refund
    case CounterpartyRedeemed => Finished
    case _ => if ctx.role.Taker? then TakerNext(state, ctx) else MakerNext(state, ctx)
  }

  function TakerNext(state: SwapState, ctx: SwapContext): NextAction {
    match state
    case Start => GenerateSecret
    case SecretGenerated =>
      (match ctx.hashlock
       case Some(h) => ctx.Lock(h)
       case None => Abort(MissingHashlock))
    case MyLegLocked =>
      (match ctx.counterpartyLock
       case None => if ctx.now >= ctx.myTimelock then Refund else WaitForCounterpartyLock
       case Some(obs) =>
         match VerifyCounterpartyLeg(ctx.Expectation(), obs)
         case Safe =>
           (match ctx.secret
            case Some(s) => RedeemCounterpartyLeg(s)
            case None => Abort(MissingSecret))
         case Unsafe(_) => Refund)
    case _ => Abort(InvalidState)
  }

  function MakerNext(state: SwapState, ctx: SwapContext): NextAction {
    match state
    case Start =>
      (match ctx.counterpartyLock
       case None => WaitForCounterpartyLock
       case Some(obs) =>
         match VerifyCounterpartyLeg(ctx.Expectation(), obs)
         case Safe =>
           (match ctx.hashlock
            case Some(h) => ctx.Lock(h)
            case None => Abort(MissingHashlock))
         case Unsafe(r) => Abort(UnsafeCounterparty(r)))
    case WaitingForSecret =>
      (match ctx.revealedSecret
       case Some(s) => RedeemCounterpartyLeg(s)
       case None => if ctx.now >= ctx.myTimelock then Refund else WaitForSecretReveal)
    case SecretLearned =>
      (match ctx.revealedSecret
       case Some(s) => RedeemCounterpartyLeg(s)
       case None => Abort(MissingSecret))
    case _ => Abort(InvalidState)
  }

  function Advance(state: SwapState, event: SwapEvent): SwapState {
    if state.Done? || state.Refunded? || state.Aborted? then state
    else
      match (state, event)
      case (Start, SecretMade) => SecretGenerated
      case (SecretGenerated, MyLegConfirmed) => MyLegLocked
      case (SecretGenerated, TimelockExpired) => Refunding
      case (MyLegLocked, CounterpartyLockObserved) => MyLegLocked
      case (MyLegLocked, RedeemConfirmed) => CounterpartyRedeemed
      case (MyLegLocked, VerificationFails) => Refunding
      case (MyLegLocked, TimelockExpired) => Refunding
      case (Start, CounterpartyLockObserved) => Start
      case (Start, MyLegConfirmed) => WaitingForSecret
      case (Start, VerificationFails) => Aborted(VerificationFailed)
      case (WaitingForSecret, SecretObserved) => SecretLearned
      case (WaitingForSecret, TimelockExpired) => Refunding
      case (SecretLearned, RedeemConfirmed) => CounterpartyRedeemed
      case (CounterpartyRedeemed, _) => Done
      case (Refunding, RefundConfirmed) => Refunded
      case (_, _) => Aborted(InvalidTransition)
  }

  /** How much of the protocol a state still has ahead of it. */
  function Rank(state: SwapState): nat {
    match state
    case Start => 6
    case SecretGenerated => 5
    case MyLegLocked => 4
    case WaitingForSecret => 4
    case SecretLearned => 3
    case Refunding => 2
    case CounterpartyRedeemed => 1
    case Done => 0
    case Refunded => 0
    case Aborted(_) => 0
  }

  /** No event ever takes a swap back, and only an observation leaves it where it was. */
  lemma AdvanceNeverClimbs(state: SwapState, event: SwapEvent)
    ensures Rank(Advance(state, event)) <= Rank(state)
    ensures Advance(state, event) != state ==> Rank(Advance(state, event)) < Rank(state)
  {}

  /**
   * The gate, in both directions. A maker is told to lock exactly when it can
   * see a safe taker leg; a taker is told to redeem, and so to reveal the
   * secret, exactly when it can see a safe maker leg.
   */
  lemma GatedOnSafety(state: SwapState, ctx: SwapContext)
    ensures ctx.role.Maker? ==>
      (NextActionOf(state, ctx).LockMyLeg? <==> state.Start? && ctx.SeesSafeLeg() && ctx.hashlock.Some?)
    ensures ctx.role.Taker? ==>
      (NextActionOf(state, ctx).RedeemCounterpartyLeg? <==>
        state.MyLegLocked? && ctx.SeesSafeLeg() && ctx.secret.Some?)
    ensures NextActionOf(state, ctx).LockMyLeg? ==>
      ctx.hashlock.Some? && NextActionOf(state, ctx) == ctx.Lock(ctx.hashlock.value)
  {}

  /** When each action is the one to take. */
  predicate Fits(state: SwapState, ctx: SwapContext, action: NextAction) {
    match action
    case GenerateSecret => ctx.role.Taker? && state.Start?
    case LockMyLeg(recipient, token, amount, hashlock, timelock) =>
      && (if ctx.role.Taker? then state.SecretGenerated? else state.Start? && ctx.SeesSafeLeg())
      && recipient == ctx.myRecipient && token == ctx.myToken && amount == ctx.myAmount
      && Some(hashlock) == ctx.hashlock && timelock == ctx.myTimelock
    case VerifyLeg => false
    case RedeemCounterpartyLeg(secret) =>
      if ctx.role.Taker? then state.MyLegLocked? && ctx.SeesSafeLeg() && ctx.secret == Some(secret)
      else (state.WaitingForSecret? || state.SecretLearned?) && ctx.revealedSecret == Some(secret)
    case WaitForCounterpartyLock =>
      ctx.counterpartyLock.None? && if ctx.role.Taker? then state.MyLegLocked? && ctx.now < ctx.myTimelock else state.Start?
    case WaitForSecretReveal =>
      ctx.role.Maker? && state.WaitingForSecret? && ctx.revealedSecret.None? && ctx.now < ctx.myTimelock
    case Refund =>
      || state.Refunding?
      || (ctx.role.Taker? && state.MyLegLocked?
          && if ctx.counterpartyLock.None? then ctx.myTimelock <= ctx.now else !ctx.SeesSafeLeg())
      || (ctx.role.Maker? && state.WaitingForSecret? && ctx.revealedSecret.None? && ctx.myTimelock <= ctx.now)
    case Finished => state in {Done, Refunded, CounterpartyRedeemed}
    case Abort(why) =>
      match why
      case UnsafeCounterparty(r) =>
        state == Aborted(why)
        || (ctx.role.Maker? && state.Start? && ctx.counterpartyLock.Some?
            && VerifyCounterpartyLeg(ctx.Expectation(), ctx.counterpartyLock.value) == Unsafe(r))
      case MissingSecret =>
        || state == Aborted(why)
        || (ctx.role.Taker? && state.MyLegLocked? && ctx.SeesSafeLeg() && ctx.secret.None?)
        || (ctx.role.Maker? && state.SecretLearned? && ctx.revealedSecret.None?)
      case MissingHashlock =>
        || state == Aborted(why)
        || (ctx.hashlock.None? && if ctx.role.Taker? then state.SecretGenerated? else state.Start? && ctx.SeesSafeLeg())
      case InvalidState =>
        || state == Aborted(why)
        || (ctx.role.Taker? && state in {WaitingForSecret, SecretLearned})
        || (ctx.role.Maker? && state in {SecretGenerated, MyLegLocked})
      case _ => state == Aborted(why)
  }

  /** In every state and context exactly one action fits, and it is the one decided. */
  lemma DecidedExactly(state: SwapState, ctx: SwapContext, action: NextAction)
    ensures NextActionOf(state, ctx) == action <==> Fits(state, ctx, action)
  {}

  /** From where, and by which event, each state is entered or kept. */
  predicate LeadsTo(state: SwapState, event: SwapEvent, next: SwapState) {
    match next
    case Start => state.Start? && event.CounterpartyLockObserved?
    case SecretGenerated => state.Start? && event.SecretMade?
    case MyLegLocked => (state.SecretGenerated? && event.MyLegConfirmed?) || (state.MyLegLocked? && event.CounterpartyLockObserved?)
    case WaitingForSecret => state.Start? && event.MyLegConfirmed?
    case SecretLearned => state.WaitingForSecret? && event.SecretObserved?
    case CounterpartyRedeemed => (state.MyLegLocked? || state.SecretLearned?) && event.RedeemConfirmed?
    case Done => state.Done? || state.CounterpartyRedeemed?
    case Refunding =>
      || (event.TimelockExpired? && state in {SecretGenerated, MyLegLocked, WaitingForSecret})
      || (event.VerificationFails? && state.MyLegLocked?)
    case Refunded => state.Refunded? || (state.Refunding? && event.RefundConfirmed?)
    case Aborted(why) =>
      || state == next
      || (why.VerificationFailed? && state.Start? && event.VerificationFails?)
      || (why.InvalidTransition? && Refused(state, event))
  }

  /** The events a swap under way has no use for. */
  predicate Refused(state: SwapState, event: SwapEvent) {
    match event
    case SecretMade => !state.Start? && InProgress(state)
    case MyLegConfirmed => !state.Start? && !state.SecretGenerated? && InProgress(state)
    case CounterpartyLockObserved => !state.Start? && !state.MyLegLocked? && InProgress(state)
    case VerificationFails => !state.Start? && !state.MyLegLocked? && InProgress(state)
    case SecretObserved => !state.WaitingForSecret? && InProgress(state)
    case TimelockExpired => state in {Start, SecretLearned, Refunding}
    case RedeemConfirmed => !state.MyLegLocked? && !state.SecretLearned? && InProgress(state)
    case RefundConfirmed => !state.Refunding? && InProgress(state)
  }

  predicate InProgress(state: SwapState) {
    !state.CounterpartyRedeemed? && !state.Done? && !state.Refunded? && !state.Aborted?
  }

  lemma AdvancesExactly(state: SwapState, event: SwapEvent, next: SwapState)
    ensures Advance(state, event) == next <==> LeadsTo(state, event, next)
  {}

  // -------- over whole sequences of events --------

  function AdvanceAll(state: SwapState, events: seq<SwapEvent>): SwapState {
    if events == [] then state
    else Advance(AdvanceAll(state, events[..|events| - 1]), events[|events| - 1])
  }

  /** What must have happened, and what cannot have, for a swap to stand where it does. */
  predicate Explains(events: seq<SwapEvent>, state: SwapState) {
    && (state in {MyLegLocked, WaitingForSecret, SecretLearned, CounterpartyRedeemed, Done} ==> MyLegConfirmed in events)
    && (state in {CounterpartyRedeemed, Done} ==> RedeemConfirmed in events)
    && (state.SecretLearned? ==> SecretObserved in events)
    && (state.Refunding? ==> TimelockExpired in events || VerificationFails in events)
    && (state.Refunded? ==> RefundConfirmed in events)
    && (!state.CounterpartyRedeemed? && !state.Done? && RedeemConfirmed in events ==> state.Aborted? || state.Refunded?)
    && (!state.Refunded? && !state.Done? && RefundConfirmed in events ==> state.Aborted?)
  }

  /** Whatever events arrive in whatever order, the state is never ahead of what they confirm. */
  lemma {:induction false} StateIsExplained(events: seq<SwapEvent>)
    ensures Explains(events, AdvanceAll(Start, events))
    decreases |events|
  {
    if events != [] {
      var n := |events| - 1;
      StateIsExplained(events[..n]);
      assert events == events[..n] + [events[n]];
      assert forall e :: e in events <==> e in events[..n] || e == events[n];
    }
  }

  /** A finished swap stays as it ended. */
  lemma {:induction false} FinishedStays(state: SwapState, events: seq<SwapEvent>)
    requires state.Done? || state.Refunded? || state.Aborted?
    ensures AdvanceAll(state, events) == state
    decreases |events|
  {
    if events != [] {
      FinishedStays(state, events[..|events| - 1]);
    }
  }

  /** The events of a swap that goes well, for each role, and of one given up after its timelock. */
  lemma RegularCourses()
    ensures AdvanceAll(Start, [SecretMade, MyLegConfirmed, CounterpartyLockObserved, RedeemConfirmed]) == CounterpartyRedeemed
    ensures AdvanceAll(Start, [CounterpartyLockObserved, MyLegConfirmed, SecretObserved, RedeemConfirmed]) == CounterpartyRedeemed
    ensures AdvanceAll(Start, [SecretMade, MyLegConfirmed, TimelockExpired, RefundConfirmed]) == Refunded
    ensures AdvanceAll(Start, [MyLegConfirmed, TimelockExpired, RefundConfirmed]) == Refunded
  {
    Courses4(SecretMade, MyLegConfirmed, CounterpartyLockObserved, RedeemConfirmed);
    Courses4(CounterpartyLockObserved, MyLegConfirmed, SecretObserved, RedeemConfirmed);
    Courses4(SecretMade, MyLegConfirmed, TimelockExpired, RefundConfirmed);
    Courses3(Start, MyLegConfirmed, TimelockExpired, RefundConfirmed);
  }

  lemma Courses3(state: SwapState, a: SwapEvent, b: SwapEvent, c: SwapEvent)
    ensures AdvanceAll(state, [a, b, c]) == Advance(Advance(Advance(state, a), b), c)
  {
    assert [a, b, c][..2] == [a, b] && [a, b][..1] == [a] && [a][..0] == [];
    assert AdvanceAll(state, [a]) == Advance(state, a);
    assert AdvanceAll(state, [a, b]) == Advance(AdvanceAll(state, [a]), b);
  }

  lemma Courses4(a: SwapEvent, b: SwapEvent, c: SwapEvent, d: SwapEvent)
    ensures AdvanceAll(Start, [a, b, c, d]) == Advance(Advance(Advance(Advance(Start, a), b), c), d)
  {
    Courses3(Start, a, b, c);
    assert [a, b, c, d][..3] == [a, b, c];
  }
}
