/**
 * One chain of the swap: balances, the HashedTimelock and the Settlement
 * contract that locks through it. A transaction either returns the next state
 * or an error that leaves the state as it was.
 *
 * Sending ETH runs the receiver's code, which may call back into the contracts
 * any number of times and to any depth. A call therefore carries a `Reply`: the
 * calls the receiver makes when it is paid, and whether it accepts the payment.
 */
module Ledger {
  import opened Primitives
  import opened Encoding
  import opened Orders

  /** The token field of a lock in native ETH. */
  const ETH: Address := 0

  // -------- balances --------

  datatype Bank = Bank(
    balances: map<(Address, Address), nat>,
    allowances: map<(Address, Address, Address), nat>,
    code: set<Address>)
  {
    function Balance(token: Address, who: Address): nat {
      if (token, who) in balances then balances[(token, who)] else 0
    }

    function Allowance(token: Address, owner: Address, spender: Address): nat {
      if (token, owner, spender) in allowances then allowances[(token, owner, spender)] else 0
    }

    function Credit(token: Address, who: Address, amount: nat): Bank {
      this.(balances := balances[(token, who) := Balance(token, who) + amount])
    }

    function Debit(token: Address, who: Address, amount: nat): Bank
      requires amount <= Balance(token, who)
    {
      this.(balances := balances[(token, who) := Balance(token, who) - amount])
    }

    function Transfer(token: Address, from: Address, to: Address, amount: nat): Option<Bank> {
      if Balance(token, from) < amount then None
      else Some(Debit(token, from, amount).Credit(token, to, amount))
    }

    function Approve(token: Address, owner: Address, spender: Address, amount: nat): Bank {
      this.(allowances := allowances[(token, owner, spender) := amount])
    }

    function TransferFrom(
      token: Address, spender: Address, from: Address, to: Address, amount: nat
    ): Option<Bank> {
      var allowed := Allowance(token, from, spender);
      if allowed < amount then None
      else
        var spent := if allowed == WORD_MAX then this else Approve(token, from, spender, allowed - amount);
        spent.Transfer(token, from, to, amount)
    }
  }

  // -------- contract storage --------

  datatype Swap = Swap(
    sender: Address,
    recipient: Address,
    token: Address,
    amount: U128,
    hashlock: Word,
    timelock: U64,
    withdrawn: bool,
    refunded: bool)
  {
    predicate Active() { !withdrawn && !refunded }
  }

  datatype Event =
    | LogNewSwap(
        contractId: Word, sender: Address, recipient: Address,
        token: Address, amount: U128, hashlock: Word, timelock: U64)
    | LogRedeem(contractId: Word, preimage: Word)
    | LogRefund(contractId: Word)

  datatype Leg = Leg(maker: Address, token: Address, amount: U128, refunded: bool)

  /** Money leaving a contract: which lock it belonged to, and when. */
  datatype Payout = Payout(contractId: Word, to: Address, token: Address, amount: U128, time: U64)

  /** A committed `authorizeLeg` (no leg) or `settleLeg`. */
  datatype Commit = Commit(maker: Address, nonce: U64, leg: Option<Word>)

  /** Where the two contracts are deployed. */
  datatype Site = Site(htlc: Address, settlement: Address, chainId: U64) {
    /** Neither contract starts a transaction, and nothing is signed by address zero. */
    predicate External(caller: Address) {
      caller != 0 && caller != htlc && caller != settlement
    }

    predicate Valid() {
      htlc != 0 && settlement != 0 && htlc != settlement
    }
  }

  /**
   * `swaps`, `log` belong to HashedTimelock; `nonces`, `legs` to Settlement.
   * `payouts`, `forwards` and `commits` record what happened; no branch reads them.
   */
  datatype World = World(
    site: Site,
    bank: Bank,
    swaps: map<Word, Swap>,
    log: seq<Event>,
    payouts: seq<Payout>,
    nonces: set<(Address, U64)>,
    legs: map<Word, Leg>,
    forwards: seq<Payout>,
    commits: seq<Commit>)

  datatype Error =
    | ZeroAmount
    | ZeroHashlock
    | TimelockInPast
    | SwapAlreadyExists
    | SwapNotFound
    | AlreadyWithdrawn
    | AlreadyRefunded
    | InvalidPreimage
    | TimelockNotExpired
    | TimelockExpired
    | NotSender
    | EthValueMismatch
    | EthNotAllowedForToken
    | InvalidToken
    | TokenTransferFailed
    | BadOrder(reason: OrderError)
    | WrongChain
    | NotOrderMaker
    | NonceAlreadyUsed
    | ContractIdMismatch
    | UnknownLeg
    | LegAlreadyRefunded
    | EthTransferFailed
    | CannotSend  // the caller is no account, or lacks the ETH it attaches

  datatype Reply = Reply(calls: seq<Call>, accepts: bool)

  datatype Call =
    | Lock(caller: Address, value: nat, recipient: Address, token: Address, amount: U128, hashlock: Word, timelock: U64)
    | Redeem(contractId: Word, preimage: Word, reply: Reply)
    | Refund(caller: Address, contractId: Word, reply: Reply)
    | AuthorizeLeg(order: Terms, signature: seq<Byte>, nowTs: nat)
    | SettleLeg(caller: Address, value: nat, order: Terms, signature: seq<Byte>, recipient: Address, hashlock: Word, timelock: U64)
    | RefundLeg(contractId: Word, reply: Reply)
    | Send(caller: Address, token: Address, to: Address, units: nat)
    | SendFrom(caller: Address, token: Address, from: Address, to: Address, units: nat)
    | ApproveSpender(caller: Address, token: Address, spender: Address, units: nat)
    | Mint(token: Address, to: Address, units: nat)
    | Deploy(account: Address)
  {
    /** The calls that end by paying somebody. */
    predicate Pays() { Redeem? || Refund? || RefundLeg? }
  }

  datatype Locked = Locked(world: World, contractId: Word)

  // -------- HashedTimelock --------

  function Pull(w: World, sender: Address, token: Address, amount: U128): Option<Bank> {
    if token == ETH then w.bank.Transfer(ETH, sender, w.site.htlc, amount)
    else w.bank.TransferFrom(token, w.site.htlc, sender, w.site.htlc, amount)
  }

  function RecordSwap(
    w: World, cid: Word, sender: Address, recipient: Address, token: Address,
    amount: U128, hashlock: Word, timelock: U64
  ): World {
    w.(swaps := w.swaps[cid := Swap(sender, recipient, token, amount, hashlock, timelock, false, false)],
       log := w.log + [LogNewSwap(cid, sender, recipient, token, amount, hashlock, timelock)])
  }

  function NewSwap(
    w: World, now: U64, sender: Address, value: nat, recipient: Address, token: Address,
    amount: U128, hashlock: Word, timelock: U64
  ): Result<Locked, Error> {
    if amount == 0 then Err(ZeroAmount)
    else if hashlock == 0 then Err(ZeroHashlock)
    else if timelock <= now then Err(TimelockInPast)
    else
      var cid := ContractId(sender, recipient, token, amount, hashlock, timelock);
      if cid in w.swaps then Err(SwapAlreadyExists)
      else if token == ETH && value != amount then Err(EthValueMismatch)
      else if token != ETH && value != 0 then Err(EthNotAllowedForToken)
      else if token != ETH && token !in w.bank.code then Err(InvalidToken)
      else
        match Pull(w, sender, token, amount)
        case None => Err(if token == ETH then CannotSend else TokenTransferFailed)
        case Some(bank) =>
          Ok(Locked(RecordSwap(w.(bank := bank), cid, sender, recipient, token, amount, hashlock, timelock), cid))
  }

  /** `_payout` up to the point where the receiver's code would run. */
  function PayOut(w: World, now: U64, cid: Word, to: Address): Result<World, Error>
    requires cid in w.swaps
  {
    var s := w.swaps[cid];
    if s.token == ETH && to == w.site.htlc then Err(TokenTransferFailed)  // the HTLC accepts no plain ETH
    else
      match w.bank.Transfer(s.token, w.site.htlc, to, s.amount)
      case None => Err(TokenTransferFailed)
      case Some(bank) =>
        Ok(w.(bank := bank, payouts := w.payouts + [Payout(cid, to, s.token, s.amount, now)]))
  }

  function BeginRedeem(w: World, now: U64, cid: Word, preimage: Word): Result<World, Error> {
    if cid !in w.swaps then Err(SwapNotFound)
    else
      var s := w.swaps[cid];
      if s.withdrawn then Err(AlreadyWithdrawn)
      else if s.refunded then Err(AlreadyRefunded)
      else if now >= s.timelock then Err(TimelockExpired)
      else if SHA256(preimage) != s.hashlock then Err(InvalidPreimage)
      else PayOut(w.(swaps := w.swaps[cid := s.(withdrawn := true)]), now, cid, s.recipient)
  }

  function BeginRefund(w: World, now: U64, caller: Address, cid: Word): Result<World, Error> {
    if cid !in w.swaps then Err(SwapNotFound)
    else
      var s := w.swaps[cid];
      if s.withdrawn then Err(AlreadyWithdrawn)
      else if s.refunded then Err(AlreadyRefunded)
      else if now < s.timelock then Err(TimelockNotExpired)
      else if caller != s.sender then Err(NotSender)
      else PayOut(w.(swaps := w.swaps[cid := s.(refunded := true)]), now, cid, s.sender)
  }

  // -------- Settlement --------

  function Authorize(w: World, order: Terms, signature: seq<Byte>, nowTs: nat): Result<World, Error> {
    match VerifyOnChain(order, signature, nowTs)
    case Err(e) => Err(BadOrder(e))
    case Ok(_) =>
      if (order.maker, order.nonce) in w.nonces then Err(NonceAlreadyUsed)
      else Ok(w.(nonces := w.nonces + {(order.maker, order.nonce)},
                 commits := w.commits + [Commit(order.maker, order.nonce, None)]))
  }

  function ReceiveAndLock(
    w: World, now: U64, caller: Address, value: nat, order: Terms,
    recipient: Address, hashlock: Word, timelock: U64
  ): Result<Locked, Error> {
    var me := w.site.settlement;
    if order.sellToken == ETH then
      if value != order.sellAmount then Err(EthValueMismatch)
      else
        match w.bank.Transfer(ETH, caller, me, value)
        case None => Err(CannotSend)
        case Some(bank) =>
          NewSwap(w.(bank := bank), now, me, order.sellAmount, recipient, ETH, order.sellAmount, hashlock, timelock)
    else if value != 0 then Err(EthNotAllowedForToken)
    else if order.sellToken !in w.bank.code then Err(InvalidToken)
    else
      match w.bank.TransferFrom(order.sellToken, me, order.maker, me, order.sellAmount)
      case None => Err(TokenTransferFailed)
      case Some(bank) =>
        var approved := bank.Approve(order.sellToken, me, w.site.htlc, order.sellAmount);
        NewSwap(w.(bank := approved), now, me, 0, recipient, order.sellToken, order.sellAmount, hashlock, timelock)
  }

  function Settle(
    w: World, now: U64, caller: Address, value: nat, order: Terms, signature: seq<Byte>,
    recipient: Address, hashlock: Word, timelock: U64
  ): Result<Locked, Error> {
    match VerifyOnChain(order, signature, now)
    case Err(e) => Err(BadOrder(e))
    case Ok(_) =>
      if order.sellChainId != w.site.chainId then Err(WrongChain)
      else if caller != order.maker then Err(NotOrderMaker)
      else if (order.maker, order.nonce) in w.nonces then Err(NonceAlreadyUsed)
      else
        var cid := ContractId(w.site.settlement, recipient, order.sellToken, order.sellAmount, hashlock, timelock);
        var w1 := w.(nonces := w.nonces + {(order.maker, order.nonce)},
                     legs := w.legs[cid := Leg(order.maker, order.sellToken, order.sellAmount, false)]);
        match ReceiveAndLock(w1, now, caller, value, order, recipient, hashlock, timelock)
        case Err(e) => Err(e)
        case Ok(locked) =>
          if locked.contractId != cid then Err(ContractIdMismatch)
          else
            var w2 := locked.world;
            Ok(Locked(w2.(commits := w2.commits + [Commit(order.maker, order.nonce, Some(cid))]), cid))
  }

  /** Forward a refunded leg to its maker, up to the point where the maker's code would run. */
  function Forward(w: World, now: U64, cid: Word, leg: Leg): Result<World, Error> {
    var failed := if leg.token == ETH then EthTransferFailed else TokenTransferFailed;
    if leg.token == ETH && leg.maker == w.site.htlc then Err(failed)
    else
      match w.bank.Transfer(leg.token, w.site.settlement, leg.maker, leg.amount)
      case None => Err(failed)
      case Some(bank) =>
        Ok(w.(bank := bank, forwards := w.forwards + [Payout(cid, leg.maker, leg.token, leg.amount, now)]))
  }

  /** The HTLC refund inside `refundLeg` pays Settlement, whose `receive` does nothing more. */
  function BeginRefundLeg(w: World, now: U64, cid: Word): Result<World, Error> {
    if cid !in w.legs then Err(UnknownLeg)
    else
      var leg := w.legs[cid];
      if leg.refunded then Err(LegAlreadyRefunded)
      else
        match BeginRefund(w.(legs := w.legs[cid := leg.(refunded := true)]), now, w.site.settlement, cid)
        case Err(e) => Err(e)
        case Ok(w1) => Forward(w1.(log := w1.log + [LogRefund(cid)]), now, cid, leg)
  }

  // -------- tokens --------

  function Optional(w: World, bank: Option<Bank>, e: Error): Result<World, Error> {
    match bank
    case None => Err(e)
    case Some(b) => Ok(w.(bank := b))
  }

  // -------- transactions --------

  /** Everything a call does before the paid party's code runs. */
  function Begin(w: World, now: U64, c: Call): Result<World, Error> {
    match c
    case Lock(caller, value, recipient, token, amount, hashlock, timelock) =>
      if !w.site.External(caller) then Err(CannotSend)
      else
        (match NewSwap(w, now, caller, value, recipient, token, amount, hashlock, timelock)
         case Err(e) => Err(e)
         case Ok(locked) => Ok(locked.world))
    case Redeem(cid, preimage, _) => BeginRedeem(w, now, cid, preimage)
    case Refund(caller, cid, _) =>
      if !w.site.External(caller) then Err(CannotSend) else BeginRefund(w, now, caller, cid)
    case AuthorizeLeg(order, signature, nowTs) => Authorize(w, order, signature, nowTs)
    case SettleLeg(caller, value, order, signature, recipient, hashlock, timelock) =>
      if !w.site.External(caller) then Err(CannotSend)
      else
        (match Settle(w, now, caller, value, order, signature, recipient, hashlock, timelock)
         case Err(e) => Err(e)
         case Ok(locked) => Ok(locked.world))
    case RefundLeg(cid, _) => BeginRefundLeg(w, now, cid)
    case Send(caller, token, to, amount) =>
      if !w.site.External(caller) then Err(CannotSend)
      else Optional(w, w.bank.Transfer(token, caller, to, amount), TokenTransferFailed)
    case SendFrom(caller, token, from, to, amount) =>
      if !w.site.External(caller) || token == ETH then Err(CannotSend)
      else Optional(w, w.bank.TransferFrom(token, caller, from, to, amount), TokenTransferFailed)
    case ApproveSpender(caller, token, spender, amount) =>
      if !w.site.External(caller) || token == ETH then Err(CannotSend)
      else Ok(w.(bank := w.bank.Approve(token, caller, spender, amount)))
    case Mint(token, to, amount) => Ok(w.(bank := w.bank.Credit(token, to, amount)))
    case Deploy(account) => Ok(w.(bank := w.bank.(code := w.bank.code + {account})))
  }

  /** The event a paying HTLC call emits once the payment went through. */
  function Finale(c: Call): seq<Event> {
    match c
    case Redeem(cid, preimage, _) => [LogRedeem(cid, preimage)]
    case Refund(_, cid, _) => [LogRefund(cid)]
    case _ => []
  }

  datatype Payment = Payment(token: Address, to: Address, failed: Error)

  /** Whom a paying call has just paid; `w` is the state after `Begin`. */
  function Paid(w: World, c: Call): Payment
    requires c.Pays()
    requires if c.RefundLeg? then c.contractId in w.legs else c.contractId in w.swaps
  {
    match c
    case Redeem(cid, _, _) => Payment(w.swaps[cid].token, w.swaps[cid].recipient, TokenTransferFailed)
    case Refund(_, cid, _) => Payment(w.swaps[cid].token, w.swaps[cid].sender, TokenTransferFailed)
    case RefundLeg(cid, _) => Payment(w.legs[cid].token, w.legs[cid].maker, EthTransferFailed)
  }

  lemma BeginKnows(w: World, now: U64, c: Call)
    requires Begin(w, now, c).Ok? && c.Pays()
    ensures var w1 := Begin(w, now, c).value;
      if c.RefundLeg? then c.contractId in w1.legs else c.contractId in w1.swaps
  {}

  /** Tokens call nobody back, and Settlement's `receive` is empty. */
  predicate RunsCode(w: World, p: Payment) {
    p.token == ETH && p.to != w.site.settlement
  }

  function Exec(w: World, now: U64, c: Call): Result<World, Error>
    decreases c
  {
    match Begin(w, now, c)
    case Err(e) => Err(e)
    case Ok(w1) =>
      if !c.Pays() then Ok(w1)
      else
        BeginKnows(w, now, c);
        match Answer(w1, now, Paid(w1, c), c.reply)
        case Err(e) => Err(e)
        case Ok(w2) => Ok(w2.(log := w2.log + Finale(c)))
  }

  /** Run the paid party's code; refusing the payment reverts the whole call. */
  function Answer(w: World, now: U64, p: Payment, reply: Reply): Result<World, Error>
    decreases reply
  {
    if !RunsCode(w, p) then Ok(w)
    else if !reply.accepts then Err(p.failed)
    else Ok(ExecAll(w, now, reply.calls))
  }

  /** Calls in sequence; one that reverts changes nothing and the next still runs. */
  function ExecAll(w: World, now: U64, calls: seq<Call>): World
    decreases calls
  {
    if calls == [] then w
    else
      match Exec(w, now, calls[0])
      case Err(_) => ExecAll(w, now, calls[1..])
      case Ok(w1) => ExecAll(w1, now, calls[1..])
  }

  /** A transaction as the chain records it. */
  datatype Transaction = Transaction(time: U64, call: Call)

  function After(w: World, now: U64, c: Call): World {
    match Exec(w, now, c)
    case Err(_) => w
    case Ok(w1) => w1
  }

  /** The state after a history of transactions. */
  function History(w: World, txs: seq<Transaction>): World
    decreases |txs|
  {
    if txs == [] then w
    else
      var before := History(w, txs[..|txs| - 1]);
      After(before, txs[|txs| - 1].time, txs[|txs| - 1].call)
  }

  /** Freshly deployed contracts: nothing stored, nothing approved. */
  ghost predicate Genesis(w: World) {
    && w.site.Valid()
    && w.swaps == map[] && w.log == [] && w.payouts == []
    && w.nonces == {} && w.legs == map[] && w.forwards == [] && w.commits == []
    && forall token, spender ::
         w.bank.Allowance(token, w.site.htlc, spender) == 0
         && w.bank.Allowance(token, w.site.settlement, spender) == 0
  }
}
