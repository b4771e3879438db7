/**
 * The two contracts as objects that update their storage in place. A method
 * that fails puts the storage back as the EVM does on a revert. Each method is
 * proved to do exactly what `Ledger` says of the same call.
 */
module Contracts {
  import opened Primitives
  import opened Encoding
  import opened Orders
  import opened Ledger
  import opened LedgerInvariants
  import opened LedgerTheorems

  ghost function ReplySize(r: Reply): nat
    decreases r
  {
    1 + CallsSize(r.calls)
  }

  ghost function CallsSize(calls: seq<Call>): nat
    decreases calls
  {
    if calls == [] then 0 else 1 + CallSize(calls[0]) + CallsSize(calls[1..])
  }

  ghost function CallSize(c: Call): nat
    decreases c
  {
    1 + if c.Pays() then ReplySize(c.reply) else 0
  }

  /** Account balances and token contracts, shared by everything on the chain. */
  class Evm {
    const site: Site
    var bank: Bank

    constructor (site: Site, bank: Bank)
      ensures this.site == site && this.bank == bank
    {
      this.site, this.bank := site, bank;
    }
  }

  class HashedTimelock {
    const evm: Evm
    var swaps: map<Word, Swap>
    var log: seq<Event>
    var payouts: seq<Payout>

    constructor (evm: Evm)
      ensures this.evm == evm && swaps == map[] && log == [] && payouts == []
    {
      this.evm := evm;
      swaps, log, payouts := map[], [], [];
    }

    method NewSwap(
      chain: Chain, now: U64, sender: Address, value: nat, recipient: Address, token: Address,
      amount: U128, hashlock: Word, timelock: U64) returns (r: Result<Word, Error>)
      requires chain.Valid() && chain.htlc == this
      modifies this, evm
      ensures match Ledger.NewSwap(old(chain.World()), now, sender, value, recipient, token, amount, hashlock, timelock)
        case Err(e) => r == Err(e) && chain.World() == old(chain.World())
        case Ok(l) => r == Ok(l.contractId) && chain.World() == l.world
    {
      if amount == 0 { return Err(ZeroAmount); }
      if hashlock == 0 { return Err(ZeroHashlock); }
      if timelock <= now { return Err(TimelockInPast); }
      var cid := ContractId(sender, recipient, token, amount, hashlock, timelock);
      if cid in swaps { return Err(SwapAlreadyExists); }
      var here := evm.site.htlc;
      if token == ETH {
        if value != amount { return Err(EthValueMismatch); }
        var paid := evm.bank.Transfer(ETH, sender, here, value);
        if paid.None? { return Err(CannotSend); }
        evm.bank := paid.value;
      } else {
        if value != 0 { return Err(EthNotAllowedForToken); }
        if token !in evm.bank.code { return Err(InvalidToken); }
        var paid := evm.bank.TransferFrom(token, here, sender, here, amount);
        if paid.None? { return Err(TokenTransferFailed); }
        evm.bank := paid.value;
      }
      swaps := swaps[cid := Swap(sender, recipient, token, amount, hashlock, timelock, false, false)];
      log := log + [LogNewSwap(cid, sender, recipient, token, amount, hashlock, timelock)];
      return Ok(cid);
    }

    method Redeem(chain: Chain, now: U64, cid: Word, preimage: Word, reply: Reply) returns (r: Result<(), Error>)
      requires chain.Valid() && chain.htlc == this
      modifies this, evm, chain.settlement
      ensures match Exec(old(chain.World()), now, Call.Redeem(cid, preimage, reply))
        case Err(e) => r == Err(e) && chain.World() == old(chain.World())
        case Ok(w) => r == Ok(()) && chain.World() == w
      decreases ReplySize(reply), 1
    {
      if cid !in swaps { return Err(SwapNotFound); }
      var s := swaps[cid];
      if s.withdrawn { return Err(AlreadyWithdrawn); }
      if s.refunded { return Err(AlreadyRefunded); }
      if now >= s.timelock { return Err(TimelockExpired); }
      if SHA256(preimage) != s.hashlock { return Err(InvalidPreimage); }

      var saved := chain.World();
      swaps := swaps[cid := s.(withdrawn := true)];
      r := PayOut(chain, now, cid, s.recipient, reply);
      if r.Err? {
        chain.Restore(saved);
        return;
      }
      log := log + [LogRedeem(cid, preimage)];
    }

    method Refund(chain: Chain, now: U64, caller: Address, cid: Word, reply: Reply) returns (r: Result<(), Error>)
      requires chain.Valid() && chain.htlc == this
      modifies this, evm, chain.settlement
      ensures match RefundFrom(old(chain.World()), now, caller, cid, reply)
        case Err(e) => r == Err(e) && chain.World() == old(chain.World())
        case Ok(w) => r == Ok(()) && chain.World() == w
      decreases ReplySize(reply), 1
    {
      if cid !in swaps { return Err(SwapNotFound); }
      var s := swaps[cid];
      if s.withdrawn { return Err(AlreadyWithdrawn); }
      if s.refunded { return Err(AlreadyRefunded); }
      if now < s.timelock { return Err(TimelockNotExpired); }
      if caller != s.sender { return Err(NotSender); }

      var saved := chain.World();
      swaps := swaps[cid := s.(refunded := true)];
      r := PayOut(chain, now, cid, s.sender, reply);
      if r.Err? {
        chain.Restore(saved);
        return;
      }
      log := log + [LogRefund(cid)];
    }

    /** Move the money of lock `cid` to `to`, whose code runs if it is ETH. */
    method PayOut(chain: Chain, now: U64, cid: Word, to: Address, reply: Reply) returns (r: Result<(), Error>)
      requires chain.Valid() && chain.htlc == this
      requires cid in swaps
      modifies this, evm, chain.settlement
      ensures chain.Valid()
      ensures match Ledger.PayOut(old(chain.World()), now, cid, to)
        case Err(e) => r == Err(e)
        case Ok(w1) =>
          match Answer(w1, now, Payment(old(swaps)[cid].token, to, TokenTransferFailed), reply)
          case Err(e) => r == Err(e)
          case Ok(w2) => r == Ok(()) && chain.World() == w2
      decreases ReplySize(reply), 0
    {
      var s := swaps[cid];
      var here := evm.site.htlc;
      if s.token == ETH && to == here { return Err(TokenTransferFailed); }
      var paid := evm.bank.Transfer(s.token, here, to, s.amount);
      if paid.None? { return Err(TokenTransferFailed); }
      evm.bank := paid.value;
      payouts := payouts + [Payout(cid, to, s.token, s.amount, now)];
      if s.token == ETH && to != evm.site.settlement {
        if !reply.accepts { return Err(TokenTransferFailed); }
        chain.ExecuteAll(now, reply.calls);
      }
      return Ok(());
    }
  }

  /** The HTLC's `refund` for any caller, Settlement included. */
  function RefundFrom(w: World, now: U64, caller: Address, cid: Word, reply: Reply): Result<World, Error> {
    match BeginRefund(w, now, caller, cid)
    case Err(e) => Err(e)
    case Ok(w1) =>
      if cid !in w1.swaps then Err(SwapNotFound)
      else
        match Answer(w1, now, Payment(w1.swaps[cid].token, w1.swaps[cid].sender, TokenTransferFailed), reply)
        case Err(e) => Err(e)
        case Ok(w2) => Ok(w2.(log := w2.log + [LogRefund(cid)]))
  }

  class Settlement {
    const evm: Evm
    const htlc: HashedTimelock
    var consumedNonce: set<(Address, U64)>
    var legs: map<Word, Leg>
    var forwards: seq<Payout>
    var commits: seq<Commit>

    constructor (htlc: HashedTimelock)
      ensures this.htlc == htlc && evm == htlc.evm
      ensures consumedNonce == {} && legs == map[] && forwards == [] && commits == []
    {
      this.htlc, evm := htlc, htlc.evm;
      consumedNonce, legs, forwards, commits := {}, map[], [], [];
    }

    method AuthorizeLeg(chain: Chain, now: U64, order: Terms, signature: seq<Byte>, nowTs: nat) returns (r: Result<(), Error>)
      requires chain.Valid() && chain.settlement == this
      modifies this
      ensures match Exec(old(chain.World()), now, Call.AuthorizeLeg(order, signature, nowTs))
        case Err(e) => r == Err(e) && chain.World() == old(chain.World())
        case Ok(w) => r == Ok(()) && chain.World() == w
    {
      var checked := VerifyOnChain(order, signature, nowTs);
      if checked.Err? { return Err(BadOrder(checked.error)); }
      if (order.maker, order.nonce) in consumedNonce { return Err(NonceAlreadyUsed); }
      consumedNonce := consumedNonce + {(order.maker, order.nonce)};
      commits := commits + [Commit(order.maker, order.nonce, None)];
      return Ok(());
    }

    method SettleLeg(
      chain: Chain, now: U64, caller: Address, value: nat, order: Terms, signature: seq<Byte>,
      recipient: Address, hashlock: Word, timelock: U64) returns (r: Result<Word, Error>)
      requires chain.Valid() && chain.settlement == this
      modifies this, htlc, evm
      ensures match Settle(old(chain.World()), now, caller, value, order, signature, recipient, hashlock, timelock)
        case Err(e) => r == Err(e) && chain.World() == old(chain.World())
        case Ok(l) => r == Ok(l.contractId) && chain.World() == l.world
    {
      var checked := VerifyOnChain(order, signature, now);
      if checked.Err? { return Err(BadOrder(checked.error)); }
      if order.sellChainId != evm.site.chainId { return Err(WrongChain); }
      if caller != order.maker { return Err(NotOrderMaker); }
      if (order.maker, order.nonce) in consumedNonce { return Err(NonceAlreadyUsed); }

      var saved := chain.World();
      consumedNonce := consumedNonce + {(order.maker, order.nonce)};
      var cid := ContractId(evm.site.settlement, recipient, order.sellToken, order.sellAmount, hashlock, timelock);
      legs := legs[cid := Leg(order.maker, order.sellToken, order.sellAmount, false)];
      r := ReceiveAndLock(chain, now, caller, value, order, recipient, hashlock, timelock);
      if r.Ok? && r.value != cid {
        r := Err(ContractIdMismatch);
      }
      if r.Err? {
        chain.Restore(saved);
        return;
      }
      commits := commits + [Commit(order.maker, order.nonce, Some(cid))];
    }

    /** Take the order's funds in and lock them; on failure the caller reverts. */
    method ReceiveAndLock(
      chain: Chain, now: U64, caller: Address, value: nat, order: Terms,
      recipient: Address, hashlock: Word, timelock: U64) returns (got: Result<Word, Error>)
      requires chain.Valid() && chain.settlement == this
      modifies htlc, evm
      ensures match Ledger.ReceiveAndLock(old(chain.World()), now, caller, value, order, recipient, hashlock, timelock)
        case Err(e) => got == Err(e)
        case Ok(l) => got == Ok(l.contractId) && chain.World() == l.world
    {
      var here := evm.site.settlement;
      if order.sellToken == ETH {
        if value != order.sellAmount { return Err(EthValueMismatch); }
        var paid := evm.bank.Transfer(ETH, caller, here, value);
        if paid.None? { return Err(CannotSend); }
        evm.bank := paid.value;
        got := htlc.NewSwap(chain, now, here, order.sellAmount, recipient, ETH, order.sellAmount, hashlock, timelock);
      } else {
        if value != 0 { return Err(EthNotAllowedForToken); }
        if order.sellToken !in evm.bank.code { return Err(InvalidToken); }
        var paid := evm.bank.TransferFrom(order.sellToken, here, order.maker, here, order.sellAmount);
        if paid.None? { return Err(TokenTransferFailed); }
        evm.bank := paid.value.Approve(order.sellToken, here, evm.site.htlc, order.sellAmount);
        got := htlc.NewSwap(chain, now, here, 0, recipient, order.sellToken, order.sellAmount, hashlock, timelock);
      }
    }

    method RefundLeg(chain: Chain, now: U64, cid: Word, reply: Reply) returns (r: Result<(), Error>)
      requires chain.Valid() && chain.settlement == this
      modifies this, htlc, evm
      ensures match Exec(old(chain.World()), now, Call.RefundLeg(cid, reply))
        case Err(e) => r == Err(e) && chain.World() == old(chain.World())
        case Ok(w) => r == Ok(()) && chain.World() == w
      decreases ReplySize(reply) + 1, 0
    {
      if cid !in legs { return Err(UnknownLeg); }
      var leg := legs[cid];
      if leg.refunded { return Err(LegAlreadyRefunded); }

      var saved := chain.World();
      legs := legs[cid := leg.(refunded := true)];
      // Settlement's `receive` accepts and makes no calls.
      r := htlc.Refund(chain, now, evm.site.settlement, cid, Reply([], true));
      if r.Err? {
        chain.Restore(saved);
        return;
      }
      r := Forward(chain, now, cid, leg, reply);
      if r.Err? {
        chain.Restore(saved);
      }
    }

    method Forward(chain: Chain, now: U64, cid: Word, leg: Leg, reply: Reply) returns (r: Result<(), Error>)
      requires chain.Valid() && chain.settlement == this
      modifies this, htlc, evm
      ensures match Ledger.Forward(old(chain.World()), now, cid, leg)
        case Err(e) => r == Err(e)
        case Ok(w1) =>
          match Answer(w1, now, Payment(leg.token, leg.maker, EthTransferFailed), reply)
          case Err(e) => r == Err(e)
          case Ok(w2) => r == Ok(()) && chain.World() == w2
      decreases ReplySize(reply), 0
    {
      var failed := if leg.token == ETH then EthTransferFailed else TokenTransferFailed;
      if leg.token == ETH && leg.maker == evm.site.htlc { return Err(failed); }
      var paid := evm.bank.Transfer(leg.token, evm.site.settlement, leg.maker, leg.amount);
      if paid.None? { return Err(failed); }
      evm.bank := paid.value;
      forwards := forwards + [Payout(cid, leg.maker, leg.token, leg.amount, now)];
      if leg.token == ETH && leg.maker != evm.site.settlement {
        if !reply.accepts { return Err(EthTransferFailed); }
        chain.ExecuteAll(now, reply.calls);
      }
      return Ok(());
    }
  }

  /** The deployed contracts together, and the way calls reach them. */
  class Chain {
    const evm: Evm
    const htlc: HashedTimelock
    const settlement: Settlement

    ghost predicate Valid() {
      htlc.evm == evm && settlement.evm == evm && settlement.htlc == htlc
    }

    constructor Deploy(site: Site, bank: Bank)
      ensures Valid() && fresh(evm) && fresh(htlc) && fresh(settlement)
      ensures World() == Ledger.World(site, bank, map[], [], [], {}, map[], [], [])
      ensures site.Valid() && (forall token, owner, spender :: bank.Allowance(token, owner, spender) == 0) ==>
        Genesis(World())
    {
      var e := new Evm(site, bank);
      var h := new HashedTimelock(e);
      var s := new Settlement(h);
      evm, htlc, settlement := e, h, s;
    }

    function World(): World
      reads evm, htlc, settlement
    {
      Ledger.World(evm.site, evm.bank, htlc.swaps, htlc.log, htlc.payouts,
                   settlement.consumedNonce, settlement.legs, settlement.forwards, settlement.commits)
    }

    /** What a revert does: every storage slot is again what it was. */
    method Restore(w: World)
      requires w.site == evm.site
      modifies evm, htlc, settlement
      ensures World() == w
    {
      evm.bank := w.bank;
      htlc.swaps, htlc.log, htlc.payouts := w.swaps, w.log, w.payouts;
      settlement.consumedNonce, settlement.legs := w.nonces, w.legs;
      settlement.forwards, settlement.commits := w.forwards, w.commits;
    }

    method Execute(now: U64, c: Call) returns (r: Result<(), Error>)
      requires Valid()
      modifies evm, htlc, settlement
      ensures match Exec(old(World()), now, c)
        case Err(e) => r == Err(e) && World() == old(World())
        case Ok(w) => r == Ok(()) && World() == w
      decreases CallSize(c), 3
    {
      match c
      case Lock(caller, value, recipient, token, amount, hashlock, timelock) =>
        if !evm.site.External(caller) { return Err(CannotSend); }
        var locked := htlc.NewSwap(this, now, caller, value, recipient, token, amount, hashlock, timelock);
        r := if locked.Ok? then Ok(()) else Err(locked.error);
      case Redeem(cid, preimage, reply) =>
        r := htlc.Redeem(this, now, cid, preimage, reply);
      case Refund(caller, cid, reply) =>
        if !evm.site.External(caller) { return Err(CannotSend); }
        r := htlc.Refund(this, now, caller, cid, reply);
      case AuthorizeLeg(order, signature, nowTs) =>
        r := settlement.AuthorizeLeg(this, now, order, signature, nowTs);
      case SettleLeg(caller, value, order, signature, recipient, hashlock, timelock) =>
        if !evm.site.External(caller) { return Err(CannotSend); }
        var settled := settlement.SettleLeg(this, now, caller, value, order, signature, recipient, hashlock, timelock);
        r := if settled.Ok? then Ok(()) else Err(settled.error);
      case RefundLeg(cid, reply) =>
        r := settlement.RefundLeg(this, now, cid, reply);
      case _ =>
        r := MoveTokens(now, c);
    }

    /** A transaction sent to the chain. From deployment on, the objects satisfy what `Ledger` proves of worlds. */
    method Transact(now: U64, c: Call) returns (r: Result<(), Error>)
      requires Valid() && WorldInv(World())
      modifies evm, htlc, settlement
      ensures WorldInv(World()) && World() == After(old(World()), now, c) && Evolves(old(World()), World(), now)
      ensures r.Err? ==> World() == old(World())
    {
      ghost var w := World();
      r := Execute(now, c);
      ExecEvolves(w, now, c);
    }

    method MoveTokens(now: U64, c: Call) returns (r: Result<(), Error>)
      requires Valid()
      requires c.Send? || c.SendFrom? || c.ApproveSpender? || c.Mint? || c.Deploy?
      modifies evm
      ensures match Exec(old(World()), now, c)
        case Err(e) => r == Err(e) && World() == old(World())
        case Ok(w) => r == Ok(()) && World() == w
    {
      var moved: Option<Bank>;
      if c.Mint? {
        moved := Some(evm.bank.Credit(c.token, c.to, c.units));
      } else if c.Deploy? {
        moved := Some(evm.bank.(code := evm.bank.code + {c.account}));
      } else if !evm.site.External(c.caller) || (c.token == ETH && !c.Send?) {
        return Err(CannotSend);
      } else if c.Send? {
        moved := evm.bank.Transfer(c.token, c.caller, c.to, c.units);
      } else if c.SendFrom? {
        moved := evm.bank.TransferFrom(c.token, c.caller, c.from, c.to, c.units);
      } else {
        moved := Some(evm.bank.Approve(c.token, c.caller, c.spender, c.units));
      }
      if moved.None? { return Err(TokenTransferFailed); }
      evm.bank := moved.value;
      return Ok(());
    }

    method ExecuteAll(now: U64, calls: seq<Call>)
      requires Valid()
      modifies evm, htlc, settlement
      ensures World() == ExecAll(old(World()), now, calls)
      decreases CallsSize(calls), 2
    {
      if calls != [] {
        var _ := Execute(now, calls[0]);
        ExecuteAll(now, calls[1..]);
      }
    }
  }
}
