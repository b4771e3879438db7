/** From a matched pair of orders to two contexts, and from those to locks each side accepts. */
module Handshake {
  import opened Primitives
  import opened Encoding
  import opened Orders
  import opened Ledger
  import opened LedgerInvariants
  import opened LedgerTheorems
  import opened Observer
  import opened Verify
  import opened StateMachine
  import opened TxOutcomes
  import opened SwapSystem
  import opened WalletRuns
  import opened Completion

  datatype TimelockPolicy = TimelockPolicy(takerLockSecs: U64, makerLockSecs: U64, minGap: U64)

  /** Digests compare as byte arrays. */
  predicate DigestBelow(a: Order, b: Order) {
    LexLess(BigEndian(Digest(a.terms), 32), BigEndian(Digest(b.terms), 32))
  }

  function AssignRole(mine: Order, theirs: Order): Role {
    if mine.createdAt < theirs.createdAt then Maker
    else if mine.createdAt > theirs.createdAt then Taker
    else if DigestBelow(mine, theirs) then Maker
    else Taker
  }

  function DeriveContext(
    mine: Order, theirs: Order, role: Role, hashlock: Option<Word>, secret: Option<Word>,
    policy: TimelockPolicy, now: U64
  ): SwapContext {
    SwapContext(
      role, mine.terms.sellToken, mine.terms.sellAmount,
      SatAdd(now, if role.Taker? then policy.takerLockSecs else policy.makerLockSecs),
      theirs.terms.maker, theirs.terms.sellToken, theirs.terms.sellAmount, mine.terms.maker,
      policy.minGap, hashlock, secret, false, None, None, now)
  }

  // -------- roles --------

  lemma BytesCompareAsNumbers(x: Word, y: Word)
    ensures LexLess(BigEndian(x, 32), BigEndian(y, 32)) <==> x < y
  {
    WordWidth();
    ValueOfBigEndian(x, 32);
    ValueOfBigEndian(y, 32);
    LexIsNumeric(BigEndian(x, 32), BigEndian(y, 32));
  }

  lemma TieBreak(a: Order, b: Order, da: Word, db: Word)
    requires da == Digest(a.terms) && db == Digest(b.terms)
    ensures DigestBelow(a, b) <==> da < db
  {
    BytesCompareAsNumbers(da, db);
  }

  /** The resting order: earlier, or of two that arrived together the one with the smaller digest. */
  ghost predicate Precedes(a: Order, b: Order) {
    a.createdAt < b.createdAt || (a.createdAt == b.createdAt && Digest(a.terms) < Digest(b.terms))
  }

  /** The resting order makes, the crossing one takes, whichever side asks. */
  lemma RestingOrderMakes(a: Order, b: Order)
    ensures AssignRole(a, b) == Maker <==> Precedes(a, b)
    ensures Precedes(a, b) ==> AssignRole(a, b) == Maker && AssignRole(b, a) == Taker
    ensures a.createdAt < b.createdAt ==> AssignRole(a, b) == Maker && AssignRole(b, a) == Taker
  {
    TieBreak(a, b, Digest(a.terms), Digest(b.terms));
    TieBreak(b, a, Digest(b.terms), Digest(a.terms));
  }

  /** The two sides disagree on who is who exactly when time and digest both tie; then both are takers. */
  lemma RolesDifferUnlessTied(a: Order, b: Order)
    ensures AssignRole(a, b) != AssignRole(b, a) <==> !(a.createdAt == b.createdAt && Digest(a.terms) == Digest(b.terms))
    ensures AssignRole(a, b) == AssignRole(b, a) ==> AssignRole(a, b) == Taker
  {
    TieBreak(a, b, Digest(a.terms), Digest(b.terms));
    TieBreak(b, a, Digest(b.terms), Digest(a.terms));
  }

  /** So, collisions of these inputs aside, only an order matched with its own copy goes wrong. */
  lemma RolesDifferForDistinctOrders(a: Order, b: Order)
    requires !DigestsCollide(a.terms, b.terms)
    ensures AssignRole(a, b) != AssignRole(b, a) <==> a != b
  {
    RolesDifferUnlessTied(a, b);
    DigestIdentifiesTerms(a.terms, b.terms);
  }

  // -------- contexts --------

  function Other(role: Role): Role {
    if role.Taker? then Maker else Taker
  }

  ghost predicate SoundPolicy(p: TimelockPolicy, now: U64) {
    && p.takerLockSecs > p.makerLockSecs
    && p.takerLockSecs >= p.makerLockSecs + p.minGap
    && now + p.takerLockSecs <= U64_MAX
  }

  /**
   * The two contexts from one pair of orders fit together, and each leg runs for
   * the time the policy gives its side: the taker's longer than the maker's.
   */
  lemma DerivedContextsPair(a: Order, b: Order, secret: Word, policy: TimelockPolicy, now: U64)
    requires SoundPolicy(policy, now) && a.terms.sellAmount > 0 && b.terms.sellAmount > 0
    ensures var h := Some(SHA256(secret));
      var dt := DeriveContext(a, b, Taker, h, Some(secret), policy, now);
      var dm := DeriveContext(b, a, Maker, h, None, policy, now);
      && Paired(dt, dm) && Agreed(dt) && Agreed(dm)
      && dt.myTimelock == now + policy.takerLockSecs && dm.myTimelock == now + policy.makerLockSecs
  {}

  /** Past the end of the 64-bit range a leg runs to that end; otherwise for its side's time. */
  lemma TimelockOfRole(a: Order, b: Order, role: Role, h: Option<Word>, secret: Option<Word>, policy: TimelockPolicy, now: U64)
    ensures var till := DeriveContext(a, b, role, h, secret, policy, now).myTimelock;
      && (till == U64_MAX || (role.Maker? ==> till - now == policy.makerLockSecs))
      && (till == U64_MAX || (role.Taker? ==> till - now == policy.takerLockSecs))
      && (till == U64_MAX ==> now + (if role.Maker? then policy.makerLockSecs else policy.takerLockSecs) >= U64_MAX)
  {}

  // -------- a lock made from one context, read through the chain by the other side --------

  /** What the other side sees of this wallet's lock once it has been mined. */
  ghost function SeenLock(w: World, now: U64, cfg: Config, deal: SwapContext): ObservedLock
    requires deal.hashlock.Some?
  {
    var tx := LockRequest(deal);
    ObservedFromSwap(GetSwap(After(w, now, CallOf(cfg, tx)), OwnId(cfg, w.site, tx)))
  }

  lemma LockReadsBack(w: World, now: U64, cfg: Config, deal: SwapContext)
    requires WorldInv(w) && deal.hashlock.Some? && Exec(w, now, CallOf(cfg, LockRequest(deal))).Ok?
    ensures SeenLock(w, now, cfg, deal) ==
      ObservedLock(deal.hashlock.value, deal.myToken, deal.myAmount, deal.myRecipient, deal.myTimelock,
                   LockSender(cfg, w.site), true)
  {
    var c := CallOf(cfg, LockRequest(deal));
    LockStores(w, now, c);
    ExecEvolves(w, now, c);
    var cid := OwnId(cfg, w.site, LockRequest(deal));
    assert SaneSwap(After(w, now, c), cid, After(w, now, c).swaps[cid]);
  }

  /**
   * Handshake to verification: whichever side locks, on whichever path, the other
   * side's check of that lock, as read back from the chain, says Safe exactly
   * while the gap to the lock's timelock remains.
   */
  lemma DerivedLockVerifies(
    a: Order, b: Order, role: Role, hash: Word, sa: Option<Word>, sb: Option<Word>,
    policy: TimelockPolicy, now: U64, w: World, minedAt: U64, cfg: Config, t: U64)
    requires SoundPolicy(policy, now) && WorldInv(w)
    requires var mine := DeriveContext(a, b, role, Some(hash), sa, policy, now);
      Exec(w, minedAt, CallOf(cfg, LockRequest(mine))).Ok?
    ensures var mine := DeriveContext(a, b, role, Some(hash), sa, policy, now);
      var theirs := DeriveContext(b, a, Other(role), Some(hash), sb, policy, now);
      VerifyCounterpartyLeg(theirs.(now := t).Expectation(), SeenLock(w, minedAt, cfg, mine)) == Safe
      <==> t + policy.minGap <= mine.myTimelock || mine.myTimelock == U64_MAX
  {
    var mine := DeriveContext(a, b, role, Some(hash), sa, policy, now);
    var theirs := DeriveContext(b, a, Other(role), Some(hash), sb, policy, now);
    LockReadsBack(w, minedAt, cfg, mine);
    SafeExactly(theirs.(now := t).Expectation(), SeenLock(w, minedAt, cfg, mine));
  }

  /** If both sides take the same role, neither is ever told that the other's lock is safe. */
  lemma SameRoleNeverSafe(
    a: Order, b: Order, role: Role, hash: Word, sa: Option<Word>, sb: Option<Word>,
    policy: TimelockPolicy, now: U64, w: World, minedAt: U64, cfg: Config, t: U64)
    requires WorldInv(w)
    requires var mine := DeriveContext(a, b, role, Some(hash), sa, policy, now);
      Exec(w, minedAt, CallOf(cfg, LockRequest(mine))).Ok?
    ensures var mine := DeriveContext(a, b, role, Some(hash), sa, policy, now);
      var theirs := DeriveContext(b, a, role, Some(hash), sb, policy, now);
      VerifyCounterpartyLeg(theirs.(now := t).Expectation(), SeenLock(w, minedAt, cfg, mine)) == Unsafe(TimelockInverted)
  {
    var mine := DeriveContext(a, b, role, Some(hash), sa, policy, now);
    LockReadsBack(w, minedAt, cfg, mine);
  }
}
