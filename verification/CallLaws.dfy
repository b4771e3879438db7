/**
 * When each transaction goes through, exactly; what a refusal means; and that
 * every nonce and leg on the books was signed for.
 */
module CallLaws {
  import opened Primitives
  import opened Encoding
  import opened Orders
  import opened Ledger
  import opened SmallSteps
  import opened Effects
  import opened LedgerInvariants
  import opened LedgerTheorems
  import opened TxOutcomes

  // -------- money that can be pulled --------

  /** `owner` can pay `amount` of a token that exists to a `spender` it has approved. */
  predicate CanPull(b: Bank, token: Address, owner: Address, spender: Address, amount: nat) {
    token in b.code && amount <= b.Balance(token, owner) && amount <= b.Allowance(token, owner, spender)
  }

  /** The attached value and the payer's means are right for locking `amount`. */
  predicate CanFund(b: Bank, token: Address, payer: Address, puller: Address, amount: nat, value: nat) {
    if token == ETH then value == amount && amount <= b.Balance(ETH, payer)
    else value == 0 && CanPull(b, token, payer, puller, amount)
  }

  // -------- locking --------

  predicate GoodLock(now: U64, amount: nat, hashlock: Word, timelock: Word) {
    amount > 0 && hashlock != 0 && now < timelock
  }

  /** `newSwap` goes through if and only if the lock is sound, new and paid for. */
  lemma LockGoesThrough(w: World, now: U64, c: Call)
    requires c.Lock?
    ensures Exec(w, now, c).Ok? <==>
      && w.site.External(c.caller)
      && GoodLock(now, c.amount, c.hashlock, c.timelock)
      && ContractId(c.caller, c.recipient, c.token, c.amount, c.hashlock, c.timelock) !in w.swaps
      && CanFund(w.bank, c.token, c.caller, w.site.htlc, c.amount, c.value)
  {}

  /** Everything Settlement asks of an order before it touches money. */
  predicate Admissible(w: World, now: nat, c: Call)
    requires c.SettleLeg?
  {
    && w.site.External(c.caller) && c.caller == c.order.maker
    && SignedBy(c.order, c.signature, now)
    && c.order.sellChainId == w.site.chainId
    && (c.order.maker, c.order.nonce) !in w.nonces
  }

  lemma FundsPassThrough(w: World, now: U64, caller: Address, value: nat, order: Terms,
                         recipient: Address, hashlock: Word, timelock: U64)
    requires w.site.Valid() && caller == order.maker && w.site.External(caller)
    ensures ReceiveAndLock(w, now, caller, value, order, recipient, hashlock, timelock).Ok? <==>
      && GoodLock(now, order.sellAmount, hashlock, timelock)
      && ContractId(w.site.settlement, recipient, order.sellToken, order.sellAmount, hashlock, timelock) !in w.swaps
      && CanFund(w.bank, order.sellToken, caller, w.site.settlement, order.sellAmount, value)
    ensures ReceiveAndLock(w, now, caller, value, order, recipient, hashlock, timelock).Ok? ==>
      ReceiveAndLock(w, now, caller, value, order, recipient, hashlock, timelock).value.contractId
      == ContractId(w.site.settlement, recipient, order.sellToken, order.sellAmount, hashlock, timelock)
  {
    var me := w.site.settlement;
    if order.sellToken == ETH {
      if CanFund(w.bank, ETH, caller, me, order.sellAmount, value) {
        TransferMoves(w.bank, ETH, caller, me, value);
      }
    } else if CanFund(w.bank, order.sellToken, caller, me, order.sellAmount, value) {
      TransferFromMoves(w.bank, order.sellToken, me, order.maker, me, order.sellAmount);
    }
  }

  /**
   * `settleLeg` goes through if and only if the caller is the maker, has signed
   * these terms for this chain and time under a fresh nonce, and the lock is
   * sound, new and paid for.
   */
  lemma SettleGoesThrough(w: World, now: U64, c: Call)
    requires w.site.Valid() && c.SettleLeg?
    ensures Exec(w, now, c).Ok? <==>
      && Admissible(w, now, c)
      && GoodLock(now, c.order.sellAmount, c.hashlock, c.timelock)
      && ContractId(w.site.settlement, c.recipient, c.order.sellToken, c.order.sellAmount, c.hashlock, c.timelock) !in w.swaps
      && CanFund(w.bank, c.order.sellToken, c.caller, w.site.settlement, c.order.sellAmount, c.value)
  {
    var order := c.order;
    AcceptedOnChain(order, c.signature, now);
    if Admissible(w, now, c) {
      var cid := ContractId(w.site.settlement, c.recipient, order.sellToken, order.sellAmount, c.hashlock, c.timelock);
      var w1 := w.(nonces := w.nonces + {(order.maker, order.nonce)},
                   legs := w.legs[cid := Leg(order.maker, order.sellToken, order.sellAmount, false)]);
      FundsPassThrough(w1, now, c.caller, c.value, order, c.recipient, c.hashlock, c.timelock);
    }
  }

  /** `authorizeLeg` goes through if and only if the terms are signed for the time given and the nonce is free. */
  lemma AuthorizeGoesThrough(w: World, now: U64, c: Call)
    requires c.AuthorizeLeg?
    ensures Exec(w, now, c).Ok? <==>
      SignedBy(c.order, c.signature, c.nowTs) && (c.order.maker, c.order.nonce) !in w.nonces
  {
    AcceptedOnChain(c.order, c.signature, c.nowTs);
  }

  // -------- paying out --------

  /** Whoever is sent ETH takes it: Settlement always, the HTLC never, anybody else as its code decides. */
  predicate Takes(w: World, token: Address, payee: Address, reply: Reply) {
    token == ETH ==> payee != w.site.htlc && (payee == w.site.settlement || reply.accepts)
  }

  /** `redeem` goes through if and only if the lock is open and in time, the preimage right and the recipient willing. */
  lemma RedeemGoesThrough(w: World, now: U64, cid: Word, preimage: Word, reply: Reply)
    requires WorldInv(w)
    ensures Exec(w, now, Redeem(cid, preimage, reply)).Ok? <==>
      && cid in w.swaps && w.swaps[cid].Active()
      && now < w.swaps[cid].timelock && SHA256(preimage) == w.swaps[cid].hashlock
      && Takes(w, w.swaps[cid].token, w.swaps[cid].recipient, reply)
  {
    if cid in w.swaps && w.swaps[cid].Active() {
      HtlcCanPay(w, cid);
    }
  }

  /** `refund` goes through if and only if the lock is open, its time up, the caller its sender and willing. */
  lemma RefundGoesThrough(w: World, now: U64, caller: Address, cid: Word, reply: Reply)
    requires WorldInv(w)
    ensures Exec(w, now, Refund(caller, cid, reply)).Ok? <==>
      && w.site.External(caller)
      && cid in w.swaps && w.swaps[cid].Active() && w.swaps[cid].timelock <= now && w.swaps[cid].sender == caller
      && Takes(w, w.swaps[cid].token, caller, reply)
  {
    if cid in w.swaps && w.swaps[cid].Active() {
      HtlcCanPay(w, cid);
    }
  }

  /** Where the HTLC's refund of a leg leaves Settlement. */
  lemma LegRefundArrives(w: World, now: U64, cid: Word)
    requires WorldInv(w) && cid in w.legs && w.swaps[cid].Active() && w.swaps[cid].timelock <= now
    ensures BeginRefundLeg(w, now, cid).Ok?
  {
    var s, leg := w.swaps[cid], w.legs[cid];
    assert LegMatches(w, leg, s);
    HtlcCanPay(w, cid);
    var w0 := w.(legs := w.legs[cid := leg.(refunded := true)]);
    assert BeginRefund(w0, now, w.site.settlement, cid).Ok?;
    BeginRefundDoes(w0, now, w.site.settlement, cid);
    assert BeginRefund(w0, now, w.site.settlement, cid).value.bank.Balance(leg.token, w.site.settlement) >= leg.amount;
  }

  /** `refundLeg` goes through if and only if the leg's lock is open, its time up, and the maker willing, whoever calls. */
  lemma RefundLegGoesThrough(w: World, now: U64, cid: Word, reply: Reply)
    requires WorldInv(w)
    ensures Exec(w, now, RefundLeg(cid, reply)).Ok? <==>
      && cid in w.legs && w.swaps[cid].Active() && w.swaps[cid].timelock <= now
      && Takes(w, w.legs[cid].token, w.legs[cid].maker, reply)
  {
    if cid in w.legs {
      assert LegMatches(w, w.legs[cid], w.swaps[cid]);
      if w.swaps[cid].Active() && w.swaps[cid].timelock <= now {
        LegRefundArrives(w, now, cid);
        BeginRefundLegDoes(w, now, cid);
      }
    }
  }

  // -------- calls in sequence --------

  /** A payee's calls run one after the other on what the earlier ones left, failures leaving nothing. */
  lemma {:induction false} CallsRunInTurn(w: World, now: U64, calls: seq<Call>, last: Call)
    ensures ExecAll(w, now, calls + [last]) == After(ExecAll(w, now, calls), now, last)
    decreases |calls|
  {
    if calls == [] {
      assert calls + [last] == [last] && [last][1..] == [];
      assert ExecAll(After(w, now, last), now, []) == After(w, now, last);
    } else {
      assert (calls + [last])[1..] == calls[1..] + [last];
      CallsRunInTurn(After(w, now, calls[0]), now, calls[1..], last);
    }
  }

  /**
   * Inside a redeem that pays ETH, each call the recipient's code makes really runs,
   * on the state the earlier ones left, before the event is written.
   */
  lemma RecipientsCodeRuns(w: World, now: U64, cid: Word, preimage: Word, calls: seq<Call>, last: Call) returns (inside: World)
    requires cid in w.swaps && w.swaps[cid].token == ETH && w.swaps[cid].recipient != w.site.settlement
    requires Exec(w, now, Redeem(cid, preimage, Reply(calls, true))).Ok?
    ensures Exec(w, now, Redeem(cid, preimage, Reply(calls, true))).value
      == inside.(log := inside.log + [LogRedeem(cid, preimage)])
    ensures Exec(w, now, Redeem(cid, preimage, Reply(calls + [last], true)))
      == Ok(After(inside, now, last).(log := After(inside, now, last).log + [LogRedeem(cid, preimage)]))
  {
    var paid := BeginRedeem(w, now, cid, preimage).value;
    inside := ExecAll(paid, now, calls);
    CallsRunInTurn(paid, now, calls, last);
  }

  // -------- plain token calls --------

  /** Balances after a plain token call, exactly. */
  lemma TokenCallsMove(w: World, now: U64, c: Call, k: Address, who: Address)
    requires Exec(w, now, c).Ok? && (c.Send? || c.SendFrom? || c.Mint? || c.ApproveSpender? || c.Deploy?)
    ensures After(w, now, c).bank.Balance(k, who) == w.bank.Balance(k, who) +
      match c
      case Send(caller, token, to, units) => Gain(k, who, token, caller, to, units)
      case SendFrom(_, token, from, to, units) => Gain(k, who, token, from, to, units)
      case Mint(token, to, units) => if k == token && who == to then units else 0
      case _ => 0
  {
    match c
    case Send(caller, token, to, units) => TransferMoves(w.bank, token, caller, to, units);
    case SendFrom(caller, token, from, to, units) => TransferFromMoves(w.bank, token, caller, from, to, units);
    case _ =>
  }

  lemma TokenCallsGoThrough(w: World, now: U64, c: Call)
    requires c.Send? || c.SendFrom? || c.Mint? || c.ApproveSpender? || c.Deploy?
    ensures Exec(w, now, c).Ok? <==>
      match c
      case Send(caller, token, _, units) => w.site.External(caller) && units <= w.bank.Balance(token, caller)
      case SendFrom(caller, token, from, _, units) =>
        w.site.External(caller) && token != ETH
        && units <= w.bank.Balance(token, from) && units <= w.bank.Allowance(token, from, caller)
      case ApproveSpender(caller, token, _, _) => w.site.External(caller) && token != ETH
      case _ => true
  {}

  // -------- refusals --------

  /** The lock a call names, and whether it may be paid out. */
  predicate LockIs(w: World, cid: Word, e: Error) {
    match e
    case SwapNotFound => cid !in w.swaps
    case AlreadyWithdrawn => cid in w.swaps && w.swaps[cid].withdrawn
    case AlreadyRefunded => cid in w.swaps && w.swaps[cid].refunded
    case _ => false
  }

  /** A lock of these terms, paid for by `payer` through `puller`, is refused. */
  predicate LockRefusedFor(
    w: World, now: U64, cid: Word, payer: Address, puller: Address, value: nat, token: Address, amount: U128,
    hashlock: Word, timelock: U64, e: Error)
  {
    match e
    case ZeroAmount => amount == 0
    case ZeroHashlock => hashlock == 0
    case TimelockInPast => timelock <= now
    case SwapAlreadyExists => cid in w.swaps
    case EthValueMismatch => token == ETH && value != amount
    case EthNotAllowedForToken => token != ETH && value != 0
    case InvalidToken => token != ETH && token !in w.bank.code
    case TokenTransferFailed => token != ETH && !CanPull(w.bank, token, payer, puller, amount)
    case CannotSend => token == ETH && w.bank.Balance(ETH, payer) < amount
    case _ => false
  }

  predicate RedeemRefusedFor(w: World, now: U64, cid: Word, preimage: Word, reply: Reply, e: Error) {
    match e
    case TimelockExpired => cid in w.swaps && w.swaps[cid].timelock <= now
    case InvalidPreimage => cid in w.swaps && SHA256(preimage) != w.swaps[cid].hashlock
    case TokenTransferFailed => cid in w.swaps && !Takes(w, w.swaps[cid].token, w.swaps[cid].recipient, reply)
    case _ => LockIs(w, cid, e)
  }

  predicate RefundRefusedFor(w: World, now: U64, caller: Address, cid: Word, reply: Reply, e: Error) {
    match e
    case TimelockNotExpired => cid in w.swaps && now < w.swaps[cid].timelock
    case NotSender => cid in w.swaps && w.swaps[cid].sender != caller
    case TokenTransferFailed => cid in w.swaps && !Takes(w, w.swaps[cid].token, caller, reply)
    case CannotSend => !w.site.External(caller)
    case _ => LockIs(w, cid, e)
  }

  predicate LegRefusedFor(w: World, now: U64, cid: Word, reply: Reply, e: Error) {
    match e
    case UnknownLeg => cid !in w.legs
    case LegAlreadyRefunded => cid in w.legs && w.legs[cid].refunded
    case AlreadyWithdrawn => cid in w.legs && cid in w.swaps && w.swaps[cid].withdrawn
    case TimelockNotExpired => cid in w.legs && cid in w.swaps && now < w.swaps[cid].timelock
    case EthTransferFailed => cid in w.legs && !Takes(w, w.legs[cid].token, w.legs[cid].maker, reply)
    case _ => false
  }

  predicate SettleRefusedFor(w: World, now: U64, c: Call, e: Error)
    requires c.SettleLeg?
  {
    var o, me := c.order, w.site.settlement;
    match e
    case BadOrder(why) => RefusedFor(o, c.signature, now, why)
    case WrongChain => o.sellChainId != w.site.chainId
    case NotOrderMaker => c.caller != o.maker
    case NonceAlreadyUsed => (o.maker, o.nonce) in w.nonces
    case _ =>
      || (e == CannotSend && !w.site.External(c.caller))
      || LockRefusedFor(w, now, ContractId(me, c.recipient, o.sellToken, o.sellAmount, c.hashlock, c.timelock),
                        c.caller, me, c.value, o.sellToken, o.sellAmount, c.hashlock, c.timelock, e)
  }

  predicate AuthorizeRefusedFor(w: World, order: Terms, signature: seq<Byte>, nowTs: nat, e: Error) {
    match e
    case BadOrder(why) => RefusedFor(order, signature, nowTs, why)
    case NonceAlreadyUsed => (order.maker, order.nonce) in w.nonces
    case _ => false
  }

  /** What an error says of the call and of the state it failed in. */
  predicate Cause(w: World, now: U64, c: Call, e: Error) {
    match c
    case Lock(caller, value, recipient, token, amount, hashlock, timelock) =>
      || (e == CannotSend && !w.site.External(caller))
      || LockRefusedFor(w, now, ContractId(caller, recipient, token, amount, hashlock, timelock),
                        caller, w.site.htlc, value, token, amount, hashlock, timelock, e)
    case Redeem(cid, preimage, reply) => RedeemRefusedFor(w, now, cid, preimage, reply, e)
    case Refund(caller, cid, reply) => RefundRefusedFor(w, now, caller, cid, reply, e)
    case AuthorizeLeg(order, signature, nowTs) => AuthorizeRefusedFor(w, order, signature, nowTs, e)
    case SettleLeg(_, _, _, _, _, _, _) => SettleRefusedFor(w, now, c, e)
    case RefundLeg(cid, reply) => LegRefusedFor(w, now, cid, reply, e)
    case _ => e == CannotSend || e == TokenTransferFailed
  }

  lemma RedeemRefusedTruly(w: World, now: U64, cid: Word, preimage: Word, reply: Reply)
    requires WorldInv(w) && Exec(w, now, Redeem(cid, preimage, reply)).Err?
    ensures RedeemRefusedFor(w, now, cid, preimage, reply, Exec(w, now, Redeem(cid, preimage, reply)).error)
  {
    if cid in w.swaps && w.swaps[cid].Active() {
      HtlcCanPay(w, cid);
    }
  }

  lemma RefundRefusedTruly(w: World, now: U64, caller: Address, cid: Word, reply: Reply)
    requires WorldInv(w) && Exec(w, now, Refund(caller, cid, reply)).Err?
    ensures RefundRefusedFor(w, now, caller, cid, reply, Exec(w, now, Refund(caller, cid, reply)).error)
  {
    if cid in w.swaps && w.swaps[cid].Active() {
      HtlcCanPay(w, cid);
    }
  }

  lemma LegNotBegun(w: World, now: U64, cid: Word, reply: Reply)
    requires WorldInv(w) && BeginRefundLeg(w, now, cid).Err?
    ensures LegRefusedFor(w, now, cid, reply, BeginRefundLeg(w, now, cid).error)
  {
    if cid in w.legs {
      assert LegMatches(w, w.legs[cid], w.swaps[cid]);
      if w.swaps[cid].Active() && w.swaps[cid].timelock <= now {
        LegRefundArrives(w, now, cid);
      }
    }
  }

  lemma LegRefusedTruly(w: World, now: U64, cid: Word, reply: Reply)
    requires WorldInv(w) && Exec(w, now, RefundLeg(cid, reply)).Err?
    ensures LegRefusedFor(w, now, cid, reply, Exec(w, now, RefundLeg(cid, reply)).error)
  {
    if BeginRefundLeg(w, now, cid).Err? {
      LegNotBegun(w, now, cid, reply);
    } else {
      BeginRefundLegDoes(w, now, cid);
    }
  }

  lemma FundsRefusedTruly(w: World, now: U64, caller: Address, value: nat, order: Terms,
                          recipient: Address, hashlock: Word, timelock: U64)
    requires w.site.Valid() && caller == order.maker && w.site.External(caller)
    requires ReceiveAndLock(w, now, caller, value, order, recipient, hashlock, timelock).Err?
    ensures var e := ReceiveAndLock(w, now, caller, value, order, recipient, hashlock, timelock).error;
      LockRefusedFor(w, now, ContractId(w.site.settlement, recipient, order.sellToken, order.sellAmount, hashlock, timelock),
                     caller, w.site.settlement, value, order.sellToken, order.sellAmount, hashlock, timelock, e)
  {
    var me := w.site.settlement;
    if order.sellToken == ETH {
      if value == order.sellAmount && value <= w.bank.Balance(ETH, caller) {
        TransferMoves(w.bank, ETH, caller, me, value);
      }
    } else if CanPull(w.bank, order.sellToken, caller, me, order.sellAmount) {
      TransferFromMoves(w.bank, order.sellToken, me, order.maker, me, order.sellAmount);
    }
  }

  lemma OrderRefusedTruly(w: World, now: U64, c: Call)
    requires c.SettleLeg? && !Admissible(w, now, c)
    ensures Exec(w, now, c).Err? && SettleRefusedFor(w, now, c, Exec(w, now, c).error)
  {
    AcceptedOnChain(c.order, c.signature, now);
    RefusalsAreTrue(c.order, c.signature, now);
  }

  lemma AdmittedRefusedTruly(w: World, now: U64, c: Call)
    requires WorldInv(w) && c.SettleLeg? && Exec(w, now, c).Err? && Admissible(w, now, c)
    ensures SettleRefusedFor(w, now, c, Exec(w, now, c).error)
  {
    var order := c.order;
    AcceptedOnChain(order, c.signature, now);
    var cid := ContractId(w.site.settlement, c.recipient, order.sellToken, order.sellAmount, c.hashlock, c.timelock);
    var w1 := w.(nonces := w.nonces + {(order.maker, order.nonce)},
                 legs := w.legs[cid := Leg(order.maker, order.sellToken, order.sellAmount, false)]);
    FundsPassThrough(w1, now, c.caller, c.value, order, c.recipient, c.hashlock, c.timelock);
    if ReceiveAndLock(w1, now, c.caller, c.value, order, c.recipient, c.hashlock, c.timelock).Err? {
      FundsRefusedTruly(w1, now, c.caller, c.value, order, c.recipient, c.hashlock, c.timelock);
    }
  }

  lemma SettleRefusedTruly(w: World, now: U64, c: Call)
    requires WorldInv(w) && c.SettleLeg? && Exec(w, now, c).Err?
    ensures SettleRefusedFor(w, now, c, Exec(w, now, c).error)
  {
    if Admissible(w, now, c) {
      AdmittedRefusedTruly(w, now, c);
    } else {
      OrderRefusedTruly(w, now, c);
    }
  }

  lemma LockRefusedTruly(w: World, now: U64, c: Call)
    requires c.Lock? && Exec(w, now, c).Err?
    ensures Cause(w, now, c, Exec(w, now, c).error)
  {}

  lemma AuthorizeRefusedTruly(w: World, now: U64, c: Call)
    requires c.AuthorizeLeg? && Exec(w, now, c).Err?
    ensures AuthorizeRefusedFor(w, c.order, c.signature, c.nowTs, Exec(w, now, c).error)
  {
    RefusalsAreTrue(c.order, c.signature, c.nowTs);
  }

  lemma TokensRefusedTruly(w: World, now: U64, c: Call)
    requires Exec(w, now, c).Err? && (c.Send? || c.SendFrom? || c.Mint? || c.ApproveSpender? || c.Deploy?)
    ensures Exec(w, now, c).error == CannotSend || Exec(w, now, c).error == TokenTransferFailed
  {}

  /** No call is ever refused for a reason that does not hold. */
  lemma RefusalsAreTruthful(w: World, now: U64, c: Call)
    requires WorldInv(w) && Exec(w, now, c).Err?
    ensures Cause(w, now, c, Exec(w, now, c).error)
  {
    match c
    case Lock(_, _, _, _, _, _, _) => LockRefusedTruly(w, now, c);
    case Redeem(cid, preimage, reply) => RedeemRefusedTruly(w, now, cid, preimage, reply);
    case Refund(caller, cid, reply) => RefundRefusedTruly(w, now, caller, cid, reply);
    case AuthorizeLeg(_, _, _) => AuthorizeRefusedTruly(w, now, c);
    case SettleLeg(_, _, _, _, _, _, _) => SettleRefusedTruly(w, now, c);
    case RefundLeg(cid, reply) => LegRefusedTruly(w, now, cid, reply);
    case _ => TokensRefusedTruly(w, now, c);
  }

  // -------- everything on Settlement's books was signed for --------

  /** Terms with this maker and nonce were signed for; if a leg came of them, for this chain, its block's time and its money. */
  ghost predicate Warranted(w: World, c: Commit, times: set<U64>) {
    exists order: Terms, signature: seq<Byte>, at: nat :: WarrantedBy(w, c, order, signature, at, times)
  }

  ghost predicate WarrantedBy(w: World, c: Commit, order: Terms, signature: seq<Byte>, at: nat, times: set<U64>) {
    && SignedBy(order, signature, at)
    && order.maker == c.maker && order.nonce == c.nonce
    && (c.leg.Some? ==>
          && at in times
          && order.sellChainId == w.site.chainId
          && c.leg.value in w.legs
          && w.legs[c.leg.value].maker == order.maker
          && w.legs[c.leg.value].token == order.sellToken
          && w.legs[c.leg.value].amount == order.sellAmount)
  }

  ghost predicate AllWarranted(w: World, times: set<U64>) {
    forall c :: c in w.commits ==> Warranted(w, c, times)
  }

  lemma WarrantStays(w: World, w1: World, now: U64, c: Commit, times: set<U64>)
    requires Warranted(w, c, times) && Evolves(w, w1, now)
    ensures Warranted(w1, c, times)
  {
    var order: Terms, signature: seq<Byte>, at: nat :| WarrantedBy(w, c, order, signature, at, times);
    if c.leg.Some? {
      assert LegEvolves(w.legs[c.leg.value], w1.legs[c.leg.value]);
    }
    assert WarrantedBy(w1, c, order, signature, at, times);
  }

  /** Only `authorizeLeg` and `settleLeg` commit anything. */
  lemma CommitsAfter(w: World, w1: World, now: U64, c: Call)
    requires Happened(w, w1, now, c)
    ensures match c
      case AuthorizeLeg(order, _, _) => w1.commits == w.commits + [Commit(order.maker, order.nonce, None)]
      case SettleLeg(_, _, order, _, recipient, hashlock, timelock) =>
        var cid := ContractId(w.site.settlement, recipient, order.sellToken, order.sellAmount, hashlock, timelock);
        && w1.commits == w.commits + [Commit(order.maker, order.nonce, Some(cid))]
        && cid in w1.legs && w1.legs[cid] == Leg(order.maker, order.sellToken, order.sellAmount, false)
      case _ => w1.commits == w.commits
  {}

  lemma NewCommitWarranted(w: World, now: U64, c: Call, times: set<U64>)
    requires WorldOf(w) && (c.AuthorizeLeg? || c.SettleLeg?) && Begin(w, now, c).Ok? && now in times
    ensures var w1 := Begin(w, now, c).value;
      |w1.commits| == |w.commits| + 1 && w1.commits[..|w.commits|] == w.commits
      && Warranted(w1, w1.commits[|w.commits|], times)
  {
    var w1 := Begin(w, now, c).value;
    BeginHappens(w, now, c);
    CommitsAfter(w, w1, now, c);
    if c.SettleLeg? {
      SettleGoesThrough(w, now, c);
      assert WarrantedBy(w1, w1.commits[|w.commits|], c.order, c.signature, now, times);
    } else {
      AuthorizeGoesThrough(w, now, c);
      assert WarrantedBy(w1, w1.commits[|w.commits|], c.order, c.signature, c.nowTs, times);
    }
  }

  /** What `Begin` needs to be described by its effects. */
  ghost predicate WorldOf(w: World) { w.site.Valid() && ContractsApproveNobody(w) }

  lemma StepKeepsWarrants(m: Mid, now: U64, s: Step, times: set<U64>)
    requires Inv(m) && Apply(m, now, s).Some? && AllWarranted(m.w, times) && now in times
    ensures AllWarranted(Apply(m, now, s).value.w, times)
  {
    var w1 := Apply(m, now, s).value.w;
    StepEvolves(m, now, s);
    if s.Do? {
      BeginHappens(m.w, now, s.call);
      CommitsAfter(m.w, w1, now, s.call);
      if s.call.AuthorizeLeg? || s.call.SettleLeg? {
        NewCommitWarranted(m.w, now, s.call, times);
      }
    }
    forall c | c in w1.commits ensures Warranted(w1, c, times) {
      if c in m.w.commits {
        WarrantStays(m.w, w1, now, c, times);
      }
    }
  }

  lemma {:induction false} StepsKeepWarrants(m: Mid, now: U64, ss: seq<Step>, times: set<U64>)
    requires Inv(m) && ApplyAll(m, now, ss).Some? && AllWarranted(m.w, times) && now in times
    ensures AllWarranted(ApplyAll(m, now, ss).value.w, times)
    decreases |ss|
  {
    if ss != [] {
      StepKeepsWarrants(m, now, ss[0], times);
      StepKeepsInv(m, now, ss[0]);
      StepsKeepWarrants(Apply(m, now, ss[0]).value, now, ss[1..], times);
    }
  }

  lemma ExecKeepsWarrants(w: World, now: U64, c: Call, times: set<U64>)
    requires WorldInv(w) && AllWarranted(w, times) && now in times
    ensures AllWarranted(After(w, now, c), times)
  {
    if Exec(w, now, c).Ok? {
      StepsRun(w, now, c, []);
      StepsKeepWarrants(Mid(w, []), now, Steps(w, now, c), times);
    }
  }

  ghost function TimesOf(txs: seq<Transaction>): set<U64> { set i | 0 <= i < |txs| :: txs[i].time }

  lemma {:induction false} HistoryWarrants(w: World, txs: seq<Transaction>, times: set<U64>)
    requires Genesis(w) && TimesOf(txs) <= times
    ensures AllWarranted(History(w, txs), times)
    decreases |txs|
  {
    if txs != [] {
      var n := |txs| - 1;
      assert forall i :: 0 <= i < n ==> txs[i].time in TimesOf(txs);
      HistoryWarrants(w, txs[..n], times);
      HistoryKeepsInv(w, txs[..n]);
      assert txs[n].time in TimesOf(txs);
      ExecKeepsWarrants(History(w, txs[..n]), txs[n].time, txs[n].call, times);
    }
  }

  /**
   * Over every history, reentrant calls included: each leg on Settlement's books
   * stands for terms its maker signed, for this chain, with the leg's token and
   * amount, not expired in a block of that history, under a nonce now consumed.
   */
  lemma EveryLegWasSignedFor(w: World, txs: seq<Transaction>, cid: Word)
    requires Genesis(w) && cid in History(w, txs).legs
    ensures var h := History(w, txs);
      exists order: Terms, signature: seq<Byte>, at: U64 ::
        SignedLeg(h, cid, order, signature, at) && exists i :: 0 <= i < |txs| && txs[i].time == at
  {
    HistoryKeepsInv(w, txs);
    HistoryWarrants(w, txs, TimesOf(txs));
    LegIsWarranted(History(w, txs), cid, TimesOf(txs));
  }

  lemma LegIsWarranted(h: World, cid: Word, times: set<U64>)
    requires WorldInv(h) && AllWarranted(h, times) && cid in h.legs
    ensures exists order: Terms, signature: seq<Byte>, at: U64 :: SignedLeg(h, cid, order, signature, at) && at in times
  {
    var i := LegWasCommitted(h.commits, cid);
    CommittedIsUsed(h.commits, i);
    assert h.commits[i] in h.commits;
    var order: Terms, signature: seq<Byte>, at: nat :| WarrantedBy(h, h.commits[i], order, signature, at, times);
    assert SignedLeg(h, cid, order, signature, at);
  }

  lemma {:induction false} CommittedIsUsed(commits: seq<Commit>, i: nat)
    requires i < |commits|
    ensures (commits[i].maker, commits[i].nonce) in NoncesOf(commits)
  {
    var n := |commits| - 1;
    if i < n {
      CommittedIsUsed(commits[..n], i);
    }
  }

  predicate SignedLeg(h: World, cid: Word, order: Terms, signature: seq<Byte>, at: U64)
    requires cid in h.legs
  {
    && SignedBy(order, signature, at) && order.sellChainId == h.site.chainId && (order.maker, order.nonce) in h.nonces
    && h.legs[cid].maker == order.maker && h.legs[cid].token == order.sellToken && h.legs[cid].amount == order.sellAmount
  }

  lemma {:induction false} LegWasCommitted(commits: seq<Commit>, cid: Word) returns (i: nat)
    requires cid in LegsOf(commits)
    ensures i < |commits| && commits[i].leg == Some(cid)
  {
    var n := |commits| - 1;
    if commits[n].leg == Some(cid) {
      i := n;
    } else {
      i := LegWasCommitted(commits[..n], cid);
    }
  }

  /** And each consumed nonce for terms its maker signed under it. */
  lemma EveryNonceWasSignedFor(w: World, txs: seq<Transaction>, maker: Address, nonce: U64)
    requires Genesis(w) && (maker, nonce) in History(w, txs).nonces
    ensures exists order: Terms, signature: seq<Byte>, at: nat ::
      SignedBy(order, signature, at) && order.maker == maker && order.nonce == nonce
  {
    var h := History(w, txs);
    HistoryKeepsInv(w, txs);
    HistoryWarrants(w, txs, TimesOf(txs));
    var i := NonceWasCommitted(h.commits, maker, nonce);
    assert h.commits[i] in h.commits;
    var order: Terms, signature: seq<Byte>, at: nat :| WarrantedBy(h, h.commits[i], order, signature, at, TimesOf(txs));
  }
}
