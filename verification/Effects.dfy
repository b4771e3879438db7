/** What each contract call does to balances and storage, free of its control flow. */
module Effects {
  import opened Primitives
  import opened Encoding
  import opened Orders
  import opened Ledger

  /** What `who` gains when `amount` of `token` moves from `from` to `to`, in asset `k`. */
  function Gain(k: Address, who: Address, token: Address, from: Address, to: Address, amount: nat): int {
    (if k == token && who == to then amount else 0) - (if k == token && who == from then amount else 0)
  }

  lemma TransferMoves(b: Bank, token: Address, from: Address, to: Address, amount: nat)
    requires b.Transfer(token, from, to, amount).Some?
    ensures var b1 := b.Transfer(token, from, to, amount).value;
      && b1.allowances == b.allowances && b1.code == b.code
      && forall k, who :: b1.Balance(k, who) == b.Balance(k, who) + Gain(k, who, token, from, to, amount)
  {}

  lemma TransferFromMoves(b: Bank, token: Address, spender: Address, from: Address, to: Address, amount: nat)
    requires b.TransferFrom(token, spender, from, to, amount).Some?
    ensures var b1 := b.TransferFrom(token, spender, from, to, amount).value;
      && b1.code == b.code
      && amount <= b.Allowance(token, from, spender)
      && (forall k, who :: b1.Balance(k, who) == b.Balance(k, who) + Gain(k, who, token, from, to, amount))
      && (forall k: Address, o: Address, s: Address :: (k, o, s) != (token, from, spender) ==> b1.Allowance(k, o, s) == b.Allowance(k, o, s))
      && b1.Allowance(token, from, spender)
         == b.Allowance(token, from, spender) - (if b.Allowance(token, from, spender) == WORD_MAX then 0 else amount)
  {
    var allowed := b.Allowance(token, from, spender);
    var spent := if allowed == WORD_MAX then b else b.Approve(token, from, spender, allowed - amount);
    TransferMoves(spent, token, from, to, amount);
  }

  /** Nobody but an owner's own approval changes what may be taken from the owner. */
  ghost predicate SameAllowances(b: Bank, b1: Bank, owner: Address) {
    forall k, s :: b1.Allowance(k, owner, s) == b.Allowance(k, owner, s)
  }

  lemma NewSwapDoes(
    w: World, now: U64, sender: Address, value: nat, recipient: Address, token: Address,
    amount: U128, hashlock: Word, timelock: U64)
    requires NewSwap(w, now, sender, value, recipient, token, amount, hashlock, timelock).Ok?
    ensures var l := NewSwap(w, now, sender, value, recipient, token, amount, hashlock, timelock).value;
      var cid := ContractId(sender, recipient, token, amount, hashlock, timelock);
      var b := l.world.bank;
      && l.contractId == cid && cid !in w.swaps
      && amount > 0 && hashlock != 0 && now < timelock
      && (token == ETH || token in w.bank.code)
      && l.world == RecordSwap(w.(bank := b), cid, sender, recipient, token, amount, hashlock, timelock)
      && b.code == w.bank.code
      && (forall k, who :: b.Balance(k, who) == w.bank.Balance(k, who) + Gain(k, who, token, sender, w.site.htlc, amount))
      && (forall k: Address, o: Address, s: Address :: (k, o, s) != (token, sender, w.site.htlc) ==> b.Allowance(k, o, s) == w.bank.Allowance(k, o, s))
      && (token == ETH ==> b.allowances == w.bank.allowances)
      && (token != ETH ==>
           b.Allowance(token, sender, w.site.htlc)
           == w.bank.Allowance(token, sender, w.site.htlc)
              - (if w.bank.Allowance(token, sender, w.site.htlc) == WORD_MAX then 0 else amount))
  {
    if token == ETH {
      TransferMoves(w.bank, ETH, sender, w.site.htlc, amount);
    } else {
      TransferFromMoves(w.bank, token, w.site.htlc, sender, w.site.htlc, amount);
    }
  }

  lemma PayOutDoes(w: World, now: U64, cid: Word, to: Address)
    requires cid in w.swaps && PayOut(w, now, cid, to).Ok?
    ensures var w1 := PayOut(w, now, cid, to).value;
      var s := w.swaps[cid];
      && w1 == w.(bank := w1.bank, payouts := w.payouts + [Payout(cid, to, s.token, s.amount, now)])
      && w1.bank.allowances == w.bank.allowances && w1.bank.code == w.bank.code
      && forall k, who ::
           w1.bank.Balance(k, who) == w.bank.Balance(k, who) + Gain(k, who, s.token, w.site.htlc, to, s.amount)
  {
    var s := w.swaps[cid];
    TransferMoves(w.bank, s.token, w.site.htlc, to, s.amount);
  }

  lemma BeginRedeemDoes(w: World, now: U64, cid: Word, preimage: Word)
    requires BeginRedeem(w, now, cid, preimage).Ok?
    ensures var w1 := BeginRedeem(w, now, cid, preimage).value;
      cid in w.swaps &&
      var s := w.swaps[cid];
      && s.Active() && now < s.timelock && SHA256(preimage) == s.hashlock
      && w1 == w.(bank := w1.bank, swaps := w.swaps[cid := s.(withdrawn := true)],
                  payouts := w.payouts + [Payout(cid, s.recipient, s.token, s.amount, now)])
      && w1.bank.allowances == w.bank.allowances && w1.bank.code == w.bank.code
      && forall k, who ::
           w1.bank.Balance(k, who) == w.bank.Balance(k, who) + Gain(k, who, s.token, w.site.htlc, s.recipient, s.amount)
  {
    var s := w.swaps[cid];
    PayOutDoes(w.(swaps := w.swaps[cid := s.(withdrawn := true)]), now, cid, s.recipient);
  }

  lemma BeginRefundDoes(w: World, now: U64, caller: Address, cid: Word)
    requires BeginRefund(w, now, caller, cid).Ok?
    ensures var w1 := BeginRefund(w, now, caller, cid).value;
      cid in w.swaps &&
      var s := w.swaps[cid];
      && s.Active() && s.timelock <= now && caller == s.sender
      && w1 == w.(bank := w1.bank, swaps := w.swaps[cid := s.(refunded := true)],
                  payouts := w.payouts + [Payout(cid, s.sender, s.token, s.amount, now)])
      && w1.bank.allowances == w.bank.allowances && w1.bank.code == w.bank.code
      && forall k, who ::
           w1.bank.Balance(k, who) == w.bank.Balance(k, who) + Gain(k, who, s.token, w.site.htlc, s.sender, s.amount)
  {
    var s := w.swaps[cid];
    PayOutDoes(w.(swaps := w.swaps[cid := s.(refunded := true)]), now, cid, s.sender);
  }

  /** What `settleLeg` stores; the balances are in `SettleMoves`. */
  lemma SettleStores(
    w: World, now: U64, caller: Address, value: nat, order: Terms, signature: seq<Byte>,
    recipient: Address, hashlock: Word, timelock: U64)
    requires Settle(w, now, caller, value, order, signature, recipient, hashlock, timelock).Ok?
    ensures var l := Settle(w, now, caller, value, order, signature, recipient, hashlock, timelock).value;
      var me := w.site.settlement;
      var cid := ContractId(me, recipient, order.sellToken, order.sellAmount, hashlock, timelock);
      && l.contractId == cid && cid !in w.swaps
      && caller == order.maker && (order.maker, order.nonce) !in w.nonces
      && order.sellAmount > 0 && hashlock != 0 && now < timelock
      && (order.sellToken == ETH || order.sellToken in w.bank.code)
      && l.world == RecordSwap(w, cid, me, recipient, order.sellToken, order.sellAmount, hashlock, timelock).(
           bank := l.world.bank,
           nonces := w.nonces + {(order.maker, order.nonce)},
           legs := w.legs[cid := Leg(order.maker, order.sellToken, order.sellAmount, false)],
           commits := w.commits + [Commit(order.maker, order.nonce, Some(cid))])
  {
    var me := w.site.settlement;
    var cid := ContractId(me, recipient, order.sellToken, order.sellAmount, hashlock, timelock);
    var w1 := w.(nonces := w.nonces + {(order.maker, order.nonce)},
                 legs := w.legs[cid := Leg(order.maker, order.sellToken, order.sellAmount, false)]);
    ReceiveAndLockStores(w1, now, caller, value, order, recipient, hashlock, timelock);
  }

  lemma ReceiveAndLockStores(
    w: World, now: U64, caller: Address, value: nat, order: Terms,
    recipient: Address, hashlock: Word, timelock: U64)
    requires ReceiveAndLock(w, now, caller, value, order, recipient, hashlock, timelock).Ok?
    ensures var l := ReceiveAndLock(w, now, caller, value, order, recipient, hashlock, timelock).value;
      var me := w.site.settlement;
      var cid := ContractId(me, recipient, order.sellToken, order.sellAmount, hashlock, timelock);
      && l.contractId == cid && cid !in w.swaps
      && order.sellAmount > 0 && hashlock != 0 && now < timelock
      && (order.sellToken == ETH || order.sellToken in w.bank.code)
      && l.world == RecordSwap(w.(bank := l.world.bank), cid, me, recipient, order.sellToken, order.sellAmount, hashlock, timelock)
  {
    var me := w.site.settlement;
    if order.sellToken == ETH {
      var bank := w.bank.Transfer(ETH, caller, me, value).value;
      NewSwapDoes(w.(bank := bank), now, me, order.sellAmount, recipient, ETH, order.sellAmount, hashlock, timelock);
    } else {
      var bank := w.bank.TransferFrom(order.sellToken, me, order.maker, me, order.sellAmount).value;
      TransferFromMoves(w.bank, order.sellToken, me, order.maker, me, order.sellAmount);
      var approved := bank.Approve(order.sellToken, me, w.site.htlc, order.sellAmount);
      NewSwapDoes(w.(bank := approved), now, me, 0, recipient, order.sellToken, order.sellAmount, hashlock, timelock);
    }
  }

  /** The maker's funds pass through Settlement into the HTLC; Settlement keeps nothing. */
  ghost predicate LockedThrough(w: World, w1: World, order: Terms) {
    && w1.bank.code == w.bank.code
    && (forall k, who ::
          w1.bank.Balance(k, who)
          == w.bank.Balance(k, who) + Gain(k, who, order.sellToken, order.maker, w.site.htlc, order.sellAmount))
    && (forall o :: o != order.maker && o != w.site.settlement ==> SameAllowances(w.bank, w1.bank, o))
    && (forall k: Address, s: Address :: (k, s) != (order.sellToken, w.site.htlc) ==>
          w1.bank.Allowance(k, w.site.settlement, s) == w.bank.Allowance(k, w.site.settlement, s))
    && (order.sellToken != ETH ==> w1.bank.Allowance(order.sellToken, w.site.settlement, w.site.htlc) == 0)
    && (order.sellToken == ETH ==> w1.bank.allowances == w.bank.allowances)
  }

  lemma SettleMoves(
    w: World, now: U64, caller: Address, value: nat, order: Terms, signature: seq<Byte>,
    recipient: Address, hashlock: Word, timelock: U64)
    requires Settle(w, now, caller, value, order, signature, recipient, hashlock, timelock).Ok?
    requires w.site.Valid() && w.site.External(caller)
    ensures LockedThrough(w, Settle(w, now, caller, value, order, signature, recipient, hashlock, timelock).value.world, order)
  {
    var me := w.site.settlement;
    var cid := ContractId(me, recipient, order.sellToken, order.sellAmount, hashlock, timelock);
    var w1 := w.(nonces := w.nonces + {(order.maker, order.nonce)},
                 legs := w.legs[cid := Leg(order.maker, order.sellToken, order.sellAmount, false)]);
    assert caller == order.maker;
    ReceiveAndLockMoves(w1, now, caller, value, order, recipient, hashlock, timelock);
  }

  lemma ReceiveAndLockMoves(
    w: World, now: U64, caller: Address, value: nat, order: Terms,
    recipient: Address, hashlock: Word, timelock: U64)
    requires ReceiveAndLock(w, now, caller, value, order, recipient, hashlock, timelock).Ok?
    requires w.site.Valid() && w.site.External(caller) && caller == order.maker
    ensures LockedThrough(w, ReceiveAndLock(w, now, caller, value, order, recipient, hashlock, timelock).value.world, order)
  {
    var me := w.site.settlement;
    if order.sellToken == ETH {
      var bank := w.bank.Transfer(ETH, caller, me, value).value;
      TransferMoves(w.bank, ETH, caller, me, value);
      NewSwapDoes(w.(bank := bank), now, me, order.sellAmount, recipient, ETH, order.sellAmount, hashlock, timelock);
    } else {
      var bank := w.bank.TransferFrom(order.sellToken, me, order.maker, me, order.sellAmount).value;
      TransferFromMoves(w.bank, order.sellToken, me, order.maker, me, order.sellAmount);
      var approved := bank.Approve(order.sellToken, me, w.site.htlc, order.sellAmount);
      NewSwapDoes(w.(bank := approved), now, me, 0, recipient, order.sellToken, order.sellAmount, hashlock, timelock);
    }
  }

  lemma BeginRefundLegDoes(w: World, now: U64, cid: Word)
    requires BeginRefundLeg(w, now, cid).Ok?
    ensures cid in w.legs && cid in w.swaps &&
      var w1 := BeginRefundLeg(w, now, cid).value;
      var leg, s := w.legs[cid], w.swaps[cid];
      && !leg.refunded && s.Active() && s.timelock <= now && s.sender == w.site.settlement
      && w1 == w.(bank := w1.bank,
                  swaps := w.swaps[cid := s.(refunded := true)],
                  legs := w.legs[cid := leg.(refunded := true)],
                  log := w.log + [LogRefund(cid)],
                  payouts := w.payouts + [Payout(cid, s.sender, s.token, s.amount, now)],
                  forwards := w.forwards + [Payout(cid, leg.maker, leg.token, leg.amount, now)])
      && w1.bank.allowances == w.bank.allowances && w1.bank.code == w.bank.code
      && forall k, who ::
           w1.bank.Balance(k, who)
           == w.bank.Balance(k, who)
              + Gain(k, who, s.token, w.site.htlc, s.sender, s.amount)
              + Gain(k, who, leg.token, w.site.settlement, leg.maker, leg.amount)
  {
    var leg := w.legs[cid];
    var w0 := w.(legs := w.legs[cid := leg.(refunded := true)]);
    BeginRefundDoes(w0, now, w.site.settlement, cid);
    var w1 := BeginRefund(w0, now, w.site.settlement, cid).value;
    TransferMoves(w1.bank, leg.token, w.site.settlement, leg.maker, leg.amount);
  }

  // -------- each call as a relation between the states around it --------

  /** Rights to pull money out of the two contracts, which stay what they were or fall to zero. */
  ghost predicate ContractsGuarded(w: World, w1: World) {
    forall k, s ::
      && w1.bank.Allowance(k, w.site.htlc, s) == w.bank.Allowance(k, w.site.htlc, s)
      && w1.bank.Allowance(k, w.site.settlement, s) in {0, w.bank.Allowance(k, w.site.settlement, s)}
  }

  ghost predicate Moved(w: World, w1: World, token: Address, from: Address, to: Address, amount: nat) {
    forall k, who :: w1.bank.Balance(k, who) == w.bank.Balance(k, who) + Gain(k, who, token, from, to, amount)
  }

  /** A new lock `s`, paid by `payer`, appears under `cid`. */
  ghost predicate Creates(w: World, w1: World, now: U64, cid: Word, s: Swap, payer: Address) {
    && w.site.External(payer)
    && cid !in w.swaps
    && cid == ContractId(s.sender, s.recipient, s.token, s.amount, s.hashlock, s.timelock)
    && s.Active() && s.amount > 0 && s.hashlock != 0 && now < s.timelock
    && w1.site == w.site && w1.payouts == w.payouts && w1.forwards == w.forwards
    && w1.swaps == w.swaps[cid := s]
    && w1.log == w.log + [LogNewSwap(cid, s.sender, s.recipient, s.token, s.amount, s.hashlock, s.timelock)]
    && ContractsGuarded(w, w1)
    && Moved(w, w1, s.token, payer, w.site.htlc, s.amount)
  }

  ghost predicate LocksDirectly(w: World, w1: World, now: U64, cid: Word, s: Swap) {
    && Creates(w, w1, now, cid, s, s.sender)
    && w1.nonces == w.nonces && w1.legs == w.legs && w1.commits == w.commits
  }

  ghost predicate LocksThroughSettlement(w: World, w1: World, now: U64, cid: Word, s: Swap, maker: Address, nonce: U64) {
    && Creates(w, w1, now, cid, s, maker)
    && s.sender == w.site.settlement
    && (maker, nonce) !in w.nonces
    && w1.nonces == w.nonces + {(maker, nonce)}
    && w1.legs == w.legs[cid := Leg(maker, s.token, s.amount, false)]
    && w1.commits == w.commits + [Commit(maker, nonce, Some(cid))]
  }

  ghost predicate Redeems(w: World, w1: World, now: U64, cid: Word, preimage: Word) {
    && cid in w.swaps
    && var s := w.swaps[cid];
    && s.Active() && now < s.timelock && SHA256(preimage) == s.hashlock
    && w1 == w.(bank := w1.bank, swaps := w.swaps[cid := s.(withdrawn := true)],
                payouts := w.payouts + [Payout(cid, s.recipient, s.token, s.amount, now)])
    && ContractsGuarded(w, w1)
    && Moved(w, w1, s.token, w.site.htlc, s.recipient, s.amount)
  }

  ghost predicate Refunds(w: World, w1: World, now: U64, cid: Word) {
    && cid in w.swaps
    && var s := w.swaps[cid];
    && s.Active() && s.timelock <= now && w.site.External(s.sender)
    && w1 == w.(bank := w1.bank, swaps := w.swaps[cid := s.(refunded := true)],
                payouts := w.payouts + [Payout(cid, s.sender, s.token, s.amount, now)])
    && ContractsGuarded(w, w1)
    && Moved(w, w1, s.token, w.site.htlc, s.sender, s.amount)
  }

  ghost predicate RefundsLeg(w: World, w1: World, now: U64, cid: Word) {
    && cid in w.legs && cid in w.swaps
    && var leg, s := w.legs[cid], w.swaps[cid];
    && !leg.refunded && s.Active() && s.timelock <= now && s.sender == w.site.settlement
    && w1 == w.(bank := w1.bank,
                swaps := w.swaps[cid := s.(refunded := true)],
                legs := w.legs[cid := leg.(refunded := true)],
                log := w.log + [LogRefund(cid)],
                payouts := w.payouts + [Payout(cid, s.sender, s.token, s.amount, now)],
                forwards := w.forwards + [Payout(cid, leg.maker, leg.token, leg.amount, now)])
    && ContractsGuarded(w, w1)
    && forall k, who ::
         w1.bank.Balance(k, who)
         == w.bank.Balance(k, who)
            + Gain(k, who, s.token, w.site.htlc, s.sender, s.amount)
            + Gain(k, who, leg.token, w.site.settlement, leg.maker, leg.amount)
  }

  ghost predicate Authorizes(w: World, w1: World, maker: Address, nonce: U64) {
    && (maker, nonce) !in w.nonces
    && w1 == w.(nonces := w.nonces + {(maker, nonce)}, commits := w.commits + [Commit(maker, nonce, None)])
  }

  /** Only balances and approvals outside the contracts change, gifts to them excepted. */
  ghost predicate OnlyTokens(w: World, w1: World, gift: Option<Address>) {
    && w1 == w.(bank := w1.bank)
    && ContractsGuarded(w, w1)
    && forall k: Address, who: Address :: who in {w.site.htlc, w.site.settlement} ==>
         && w1.bank.Balance(k, who) >= w.bank.Balance(k, who)
         && (gift != Some(who) ==> w1.bank.Balance(k, who) == w.bank.Balance(k, who))
  }

  function GiftTo(c: Call): Option<Address> {
    match c
    case Send(_, _, to, _) => Some(to)
    case SendFrom(_, _, _, to, _) => Some(to)
    case Mint(_, to, _) => Some(to)
    case _ => None
  }

  ghost predicate Happened(w: World, w1: World, now: U64, c: Call) {
    match c
    case Lock(caller, value, recipient, token, amount, hashlock, timelock) =>
      LocksDirectly(w, w1, now, ContractId(caller, recipient, token, amount, hashlock, timelock),
                    Swap(caller, recipient, token, amount, hashlock, timelock, false, false))
    case SettleLeg(caller, _, order, _, recipient, hashlock, timelock) =>
      var me := w.site.settlement;
      LocksThroughSettlement(
        w, w1, now, ContractId(me, recipient, order.sellToken, order.sellAmount, hashlock, timelock),
        Swap(me, recipient, order.sellToken, order.sellAmount, hashlock, timelock, false, false),
        order.maker, order.nonce)
    case Redeem(cid, preimage, _) => Redeems(w, w1, now, cid, preimage)
    case Refund(_, cid, _) => Refunds(w, w1, now, cid)
    case RefundLeg(cid, _) => RefundsLeg(w, w1, now, cid)
    case AuthorizeLeg(order, _, _) => Authorizes(w, w1, order.maker, order.nonce)
    case _ => OnlyTokens(w, w1, GiftTo(c))
  }

  ghost predicate ContractsApproveNobody(w: World) {
    && (forall k, s :: w.bank.Allowance(k, w.site.htlc, s) == 0)
    && (forall k, s :: w.bank.Allowance(k, w.site.settlement, s) == 0)
  }

  lemma LockHappens(w: World, now: U64, c: Call)
    requires c.Lock? && w.site.Valid() && Begin(w, now, c).Ok?
    ensures Happened(w, Begin(w, now, c).value, now, c)
  {
    NewSwapDoes(w, now, c.caller, c.value, c.recipient, c.token, c.amount, c.hashlock, c.timelock);
  }

  lemma SettleHappens(w: World, now: U64, c: Call)
    requires c.SettleLeg? && w.site.Valid() && Begin(w, now, c).Ok?
    ensures Happened(w, Begin(w, now, c).value, now, c)
  {
    SettleStores(w, now, c.caller, c.value, c.order, c.signature, c.recipient, c.hashlock, c.timelock);
    SettleMoves(w, now, c.caller, c.value, c.order, c.signature, c.recipient, c.hashlock, c.timelock);
    var w1 := Begin(w, now, c).value;
    assert SameAllowances(w.bank, w1.bank, w.site.htlc);
  }

  lemma PaymentHappens(w: World, now: U64, c: Call)
    requires c.Pays() && Begin(w, now, c).Ok?
    ensures Happened(w, Begin(w, now, c).value, now, c)
  {
    match c
    case Redeem(cid, p, _) => BeginRedeemDoes(w, now, cid, p);
    case Refund(caller, cid, _) => BeginRefundDoes(w, now, caller, cid);
    case RefundLeg(cid, _) => BeginRefundLegDoes(w, now, cid);
  }

  lemma TokenMoveHappens(w: World, now: U64, c: Call)
    requires c.Send? || c.SendFrom?
    requires w.site.Valid() && ContractsApproveNobody(w) && Begin(w, now, c).Ok?
    ensures OnlyTokens(w, Begin(w, now, c).value, GiftTo(c))
  {
    if c.Send? {
      TransferMoves(w.bank, c.token, c.caller, c.to, c.units);
    } else {
      TransferFromMoves(w.bank, c.token, c.caller, c.from, c.to, c.units);
    }
  }

  lemma TokensHappen(w: World, now: U64, c: Call)
    requires c.Send? || c.SendFrom? || c.ApproveSpender? || c.Mint? || c.Deploy? || c.AuthorizeLeg?
    requires w.site.Valid() && ContractsApproveNobody(w) && Begin(w, now, c).Ok?
    ensures Happened(w, Begin(w, now, c).value, now, c)
  {
    if c.Send? || c.SendFrom? {
      TokenMoveHappens(w, now, c);
    }
  }

  /** Each call that gets past its checks does exactly what its relation says. */
  lemma BeginHappens(w: World, now: U64, c: Call)
    requires w.site.Valid() && ContractsApproveNobody(w) && Begin(w, now, c).Ok?
    ensures Happened(w, Begin(w, now, c).value, now, c)
  {
    if c.Lock? {
      LockHappens(w, now, c);
    } else if c.SettleLeg? {
      SettleHappens(w, now, c);
    } else if c.Pays() {
      PaymentHappens(w, now, c);
    } else {
      TokensHappen(w, now, c);
    }
  }

  // -------- approvals --------

  /** Whose approval a call draws on, and by how much. */
  function Draws(w: World, c: Call): Option<(Address, Address, Address, nat)> {
    match c
    case Lock(caller, _, _, token, amount, _, _) =>
      if token == ETH then None else Some((token, caller, w.site.htlc, amount))
    case SettleLeg(_, _, order, _, _, _, _) =>
      if order.sellToken == ETH then None else Some((order.sellToken, order.maker, w.site.settlement, order.sellAmount))
    case SendFrom(caller, token, from, _, units) => Some((token, from, caller, units))
    case _ => None
  }

  /** The approval left after the call: set by `approve`, drawn on unless unlimited, otherwise as it was. */
  function ApprovalLeft(w: World, c: Call, token: Address, owner: Address, spender: Address): int {
    var before := w.bank.Allowance(token, owner, spender);
    if c.ApproveSpender? && (token, owner, spender) == (c.token, c.caller, c.spender) then c.units
    else
      match Draws(w, c)
      case None => before
      case Some((t, o, s, amount)) =>
        if (token, owner, spender) == (t, o, s) && before != WORD_MAX then before - amount else before
  }

  ghost predicate Drawn(b: Bank, b1: Bank, token: Address, owner: Address, spender: Address, amount: nat) {
    forall k, s :: b1.Allowance(k, owner, s)
      == b.Allowance(k, owner, s) - (if k == token && s == spender && b.Allowance(k, owner, s) != WORD_MAX then amount else 0)
  }

  lemma ReceiveAndLockDraws(
    w: World, now: U64, caller: Address, value: nat, order: Terms,
    recipient: Address, hashlock: Word, timelock: U64)
    requires ReceiveAndLock(w, now, caller, value, order, recipient, hashlock, timelock).Ok?
    requires w.site.Valid() && w.site.External(caller) && caller == order.maker && order.sellToken != ETH
    ensures Drawn(w.bank, ReceiveAndLock(w, now, caller, value, order, recipient, hashlock, timelock).value.world.bank,
                  order.sellToken, order.maker, w.site.settlement, order.sellAmount)
  {
    var me := w.site.settlement;
    var bank := w.bank.TransferFrom(order.sellToken, me, order.maker, me, order.sellAmount).value;
    TransferFromMoves(w.bank, order.sellToken, me, order.maker, me, order.sellAmount);
    var approved := bank.Approve(order.sellToken, me, w.site.htlc, order.sellAmount);
    NewSwapDoes(w.(bank := approved), now, me, 0, recipient, order.sellToken, order.sellAmount, hashlock, timelock);
  }

  lemma SettleApprovals(w: World, now: U64, c: Call, k: Address, o: Address, s: Address)
    requires c.SettleLeg? && w.site.Valid() && ContractsApproveNobody(w) && Begin(w, now, c).Ok?
    ensures Begin(w, now, c).value.bank.Allowance(k, o, s) == ApprovalLeft(w, c, k, o, s)
  {
    var order := c.order;
    SettleMoves(w, now, c.caller, c.value, order, c.signature, c.recipient, c.hashlock, c.timelock);
    if order.sellToken != ETH {
      var cid := ContractId(w.site.settlement, c.recipient, order.sellToken, order.sellAmount, c.hashlock, c.timelock);
      var w1 := w.(nonces := w.nonces + {(order.maker, order.nonce)},
                   legs := w.legs[cid := Leg(order.maker, order.sellToken, order.sellAmount, false)]);
      ReceiveAndLockDraws(w1, now, c.caller, c.value, order, c.recipient, c.hashlock, c.timelock);
      var w2 := Begin(w, now, c).value;
      if o != order.maker && o != w.site.settlement {
        assert SameAllowances(w.bank, w2.bank, o);
      }
    }
  }

  lemma PaymentApprovals(w: World, now: U64, c: Call)
    requires c.Pays() && Begin(w, now, c).Ok?
    ensures Begin(w, now, c).value.bank.allowances == w.bank.allowances
  {
    match c
    case Redeem(cid, p, _) => BeginRedeemDoes(w, now, cid, p);
    case Refund(caller, cid, _) => BeginRefundDoes(w, now, caller, cid);
    case RefundLeg(cid, _) => BeginRefundLegDoes(w, now, cid);
  }

  /** Every approval on the chain after a call, exactly: only the one drawn on or set has changed. */
  lemma BeginApprovals(w: World, now: U64, c: Call, k: Address, o: Address, s: Address)
    requires w.site.Valid() && ContractsApproveNobody(w) && Begin(w, now, c).Ok?
    ensures Begin(w, now, c).value.bank.Allowance(k, o, s) == ApprovalLeft(w, c, k, o, s)
  {
    if c.Lock? {
      NewSwapDoes(w, now, c.caller, c.value, c.recipient, c.token, c.amount, c.hashlock, c.timelock);
    } else if c.SettleLeg? {
      SettleApprovals(w, now, c, k, o, s);
    } else if c.Pays() {
      PaymentApprovals(w, now, c);
    } else if c.SendFrom? {
      TransferFromMoves(w.bank, c.token, c.caller, c.from, c.to, c.units);
    }
  }
}
