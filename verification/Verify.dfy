/** Is the lock seen on the other chain safe to act on? */
module Verify {
  import opened Primitives

  datatype Role = Taker | Maker

  datatype ObservedLock = ObservedLock(
    hashlock: Word,
    token: Address,
    amount: U128,
    recipient: Address,
    timelock: U64,
    sender: Address,
    exists_: bool)

  datatype LegExpectation = LegExpectation(
    hashlock: Word,
    token: Address,
    amount: U128,
    recipient: Address,
    myTimelock: U64,
    minGap: U64,
    now: U64,
    role: Role)

  datatype UnsafeReason =
    | LockNotFound
    | HashlockMismatch
    | TokenMismatch
    | AmountMismatch
    | RecipientMismatch
    | TimelockGapTooSmall
    | TimelockInverted
    | CounterpartyExpiresTooSoon

  datatype VerifyOutcome = Safe | Unsafe(reason: UnsafeReason)

  /** The order of the two timelocks, seen by the role holding `my`. */
  function StructuralCheck(role: Role, my: U64, opp: U64, gap: U64): Option<UnsafeReason> {
    match role
    case Maker =>
      if opp <= my then Some(TimelockInverted)
      else if opp < SatAdd(my, gap) then Some(TimelockGapTooSmall)
      else None
    case Taker =>
      if opp >= my then Some(TimelockInverted)
      else if SatAdd(opp, gap) > my then Some(TimelockGapTooSmall)
      else None
  }

  function CheckTimelockGap(e: LegExpectation, o: ObservedLock): Option<UnsafeReason> {
    var structural := StructuralCheck(e.role, e.myTimelock, o.timelock, e.minGap);
    if structural.Some? then structural
    else if o.timelock < SatAdd(e.now, e.minGap) then Some(CounterpartyExpiresTooSoon)
    else None
  }

  function VerifyCounterpartyLeg(e: LegExpectation, o: ObservedLock): VerifyOutcome {
    if !o.exists_ then Unsafe(LockNotFound)
    else if o.hashlock != e.hashlock then Unsafe(HashlockMismatch)
    else if o.token != e.token then Unsafe(TokenMismatch)
    else if o.amount != e.amount then Unsafe(AmountMismatch)
    else if o.recipient != e.recipient then Unsafe(RecipientMismatch)
    else
      match CheckTimelockGap(e, o)
      case Some(reason) => Unsafe(reason)
      case None => Safe
  }

  /** Both sides judge one pair of timelocks alike, verdict and reason, for all u64 values. */
  lemma TimelockDuality(makerLock: U64, takerLock: U64, gap: U64)
    ensures StructuralCheck(Maker, makerLock, takerLock, gap) == StructuralCheck(Taker, takerLock, makerLock, gap)
  {}

  predicate FieldsMatch(e: LegExpectation, o: ObservedLock) {
    && o.exists_ && o.hashlock == e.hashlock && o.token == e.token
    && o.amount == e.amount && o.recipient == e.recipient
  }

  /** Maker's timelock, then taker's. */
  function Timelocks(e: LegExpectation, o: ObservedLock): (U64, U64) {
    if e.role.Maker? then (e.myTimelock, o.timelock) else (o.timelock, e.myTimelock)
  }

  /**
   * The verdict in unbounded arithmetic, for all inputs. Saturation makes
   * exactly one difference: a timelock of u64::MAX passes for any sum.
   */
  lemma SafeExactly(e: LegExpectation, o: ObservedLock)
    ensures VerifyCounterpartyLeg(e, o) == Safe <==>
      var (short, long) := Timelocks(e, o);
      && FieldsMatch(e, o)
      && short < long
      && (short + e.minGap <= long || long == U64_MAX)
      && (e.now + e.minGap <= o.timelock || o.timelock == U64_MAX)
  {}

  /**
   * And for each verdict against a lock, when it is given: the first field that
   * differs, then the order of the timelocks, their gap, the time that remains.
   */
  predicate Deserves(e: LegExpectation, o: ObservedLock, reason: UnsafeReason) {
    var (short, long) := Timelocks(e, o);
    match reason
    case LockNotFound => !o.exists_
    case HashlockMismatch => o.exists_ && o.hashlock != e.hashlock
    case TokenMismatch => o.exists_ && o.hashlock == e.hashlock && o.token != e.token
    case AmountMismatch => o.exists_ && o.hashlock == e.hashlock && o.token == e.token && o.amount != e.amount
    case RecipientMismatch =>
      o.exists_ && o.hashlock == e.hashlock && o.token == e.token && o.amount == e.amount && o.recipient != e.recipient
    case TimelockInverted => FieldsMatch(e, o) && long <= short
    case TimelockGapTooSmall => FieldsMatch(e, o) && short < long < short + e.minGap && long < U64_MAX
    case CounterpartyExpiresTooSoon =>
      && FieldsMatch(e, o) && short < long && (short + e.minGap <= long || long == U64_MAX)
      && o.timelock < e.now + e.minGap && o.timelock < U64_MAX
  }

  lemma UnsafeExactly(e: LegExpectation, o: ObservedLock, reason: UnsafeReason)
    ensures VerifyCounterpartyLeg(e, o) == Unsafe(reason) <==> Deserves(e, o, reason)
  {}

  /** So when the sums fit in 64 bits the verdict is the plain rule. */
  lemma SafeWhenSumsFit(e: LegExpectation, o: ObservedLock)
    requires Timelocks(e, o).0 + e.minGap <= U64_MAX && e.now + e.minGap <= U64_MAX
    ensures VerifyCounterpartyLeg(e, o) == Safe <==>
      var (short, long) := Timelocks(e, o);
      FieldsMatch(e, o) && short < long && short + e.minGap <= long && e.now + e.minGap <= o.timelock
  {}

  /** A taker that is told Safe still has time on its own leg, saturation or not. */
  lemma TakerSafeIsEarly(e: LegExpectation, o: ObservedLock)
    requires e.role.Taker? && VerifyCounterpartyLeg(e, o) == Safe
    ensures e.now < e.myTimelock
  {}

  /**
   * Safe promises that the other lock has not expired, but not that it can still
   * be redeemed: with no gap, or at the end of the u64 range, it may expire now.
   */
  lemma SafeLeavesTime(e: LegExpectation, o: ObservedLock)
    requires VerifyCounterpartyLeg(e, o) == Safe
    ensures e.now <= o.timelock
    ensures e.now == o.timelock ==> e.minGap == 0 || o.timelock == U64_MAX
    ensures e.minGap > 0 && o.timelock < U64_MAX ==> e.now < o.timelock
  {}

  /** A lock that is judged Safe at the very moment it expires. */
  lemma SafeAtExpiry() returns (e: LegExpectation, o: ObservedLock)
    ensures VerifyCounterpartyLeg(e, o) == Safe && e.now == o.timelock
  {
    e := LegExpectation(1, 0, 1, 2, 20, 0, 10, Taker);
    o := ObservedLock(1, 0, 1, 2, 10, 3, true);
  }
}
