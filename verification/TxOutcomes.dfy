/** When a transaction is bound to succeed, and what success means. */
module TxOutcomes {
  import opened Primitives
  import opened Encoding
  import opened Sums
  import opened Ledger
  import opened SmallSteps
  import opened Effects
  import opened LedgerInvariants
  import opened LedgerTheorems

  /** Solvency is what makes a payout certain: the HTLC always holds the lock's amount. */
  lemma HtlcCanPay(w: World, cid: Word)
    requires WorldInv(w) && cid in w.swaps && w.swaps[cid].Active()
    ensures w.swaps[cid].amount <= w.bank.Balance(w.swaps[cid].token, w.site.htlc)
  {
    var k := w.swaps[cid].token;
    assert Surplus(w, k) >= 0;
    TotalAtLeast(Claims(w.swaps, k), cid);
  }

  /** A redeem with the preimage, in time, leaves the lock withdrawn whoever else tried before. */
  lemma RedeemSucceeds(w: World, now: U64, cid: Word, preimage: Word)
    requires WorldInv(w) && cid in w.swaps
    requires SHA256(preimage) == w.swaps[cid].hashlock && now < w.swaps[cid].timelock
    requires !w.swaps[cid].refunded && w.swaps[cid].recipient != w.site.htlc
    ensures var c := Redeem(cid, preimage, Reply([], true));
      && (!w.swaps[cid].withdrawn ==> Exec(w, now, c).Ok?)
      && cid in After(w, now, c).swaps && After(w, now, c).swaps[cid].withdrawn
  {
    var c := Redeem(cid, preimage, Reply([], true));
    if !w.swaps[cid].withdrawn {
      HtlcCanPay(w, cid);
      assert BeginRedeem(w, now, cid, preimage).Ok?;
      BeginRedeemDoes(w, now, cid, preimage);
      var w1 := BeginRedeem(w, now, cid, preimage).value;
      assert Answer(w1, now, Paid(w1, c), c.reply) == Ok(w1);
    }
  }

  /** A refund by the sender once the time is up leaves the lock refunded. */
  lemma RefundSucceeds(w: World, now: U64, caller: Address, cid: Word)
    requires WorldInv(w) && cid in w.swaps && w.site.External(caller)
    requires w.swaps[cid].sender == caller && w.swaps[cid].timelock <= now && !w.swaps[cid].withdrawn
    ensures var c := Refund(caller, cid, Reply([], true));
      && (!w.swaps[cid].refunded ==> Exec(w, now, c).Ok?)
      && cid in After(w, now, c).swaps && After(w, now, c).swaps[cid].refunded
  {
    var c := Refund(caller, cid, Reply([], true));
    if !w.swaps[cid].refunded {
      HtlcCanPay(w, cid);
      assert BeginRefund(w, now, caller, cid).Ok?;
      BeginRefundDoes(w, now, caller, cid);
      var w1 := BeginRefund(w, now, caller, cid).value;
      assert Answer(w1, now, Paid(w1, c), c.reply) == Ok(w1);
    }
  }

  /** The same through Settlement, where anyone may have been first. */
  lemma RefundLegSucceeds(w: World, now: U64, cid: Word)
    requires WorldInv(w) && cid in w.legs
    requires w.swaps[cid].timelock <= now && !w.swaps[cid].withdrawn
    ensures var c := RefundLeg(cid, Reply([], true));
      && (!w.swaps[cid].refunded ==> Exec(w, now, c).Ok?)
      && cid in After(w, now, c).swaps && After(w, now, c).swaps[cid].refunded
  {
    var c := RefundLeg(cid, Reply([], true));
    var s, leg := w.swaps[cid], w.legs[cid];
    assert LegMatches(w, leg, s);
    if !s.refunded {
      HtlcCanPay(w, cid);
      var w0 := w.(legs := w.legs[cid := leg.(refunded := true)]);
      assert BeginRefund(w0, now, w.site.settlement, cid).Ok?;
      BeginRefundDoes(w0, now, w.site.settlement, cid);
      var w1 := BeginRefund(w0, now, w.site.settlement, cid).value;
      assert w1.bank.Balance(leg.token, w.site.settlement) >= leg.amount;
      assert BeginRefundLeg(w, now, cid).Ok?;
      BeginRefundLegDoes(w, now, cid);
      var w2 := BeginRefundLeg(w, now, cid).value;
      assert Answer(w2, now, Paid(w2, c), c.reply) == Ok(w2);
    }
  }

  /** A lock that goes through is new, open, and exactly what was asked for. */
  lemma LockStores(w: World, now: U64, c: Call)
    requires WorldInv(w) && (c.Lock? || c.SettleLeg?) && Exec(w, now, c).Ok?
    ensures var w1 := After(w, now, c);
      var s := if c.Lock? then Swap(c.caller, c.recipient, c.token, c.amount, c.hashlock, c.timelock, false, false)
               else Swap(w.site.settlement, c.recipient, c.order.sellToken, c.order.sellAmount, c.hashlock, c.timelock, false, false);
      var cid := ContractId(s.sender, s.recipient, s.token, s.amount, s.hashlock, s.timelock);
      && cid !in w.swaps && w1.swaps == w.swaps[cid := s]
      && w1.log == w.log + [Creation(cid, s)]
      && now < s.timelock
      && (c.SettleLeg? ==> cid in w1.legs && w1.legs[cid].maker == c.order.maker)
  {
    BeginHappens(w, now, c);
  }

  /** What a paying call did before the payee's code ran is still there when the call is over, whatever that code did. */
  lemma PaymentStands(w: World, now: U64, c: Call)
    requires WorldInv(w) && c.Pays() && Exec(w, now, c).Ok?
    ensures Begin(w, now, c).Ok? && Happened(w, Begin(w, now, c).value, now, c)
    ensures Evolves(Begin(w, now, c).value, After(w, now, c), now)
  {
    BeginHappens(w, now, c);
    var m, ss := Mid(w, []), Steps(w, now, c);
    StepsRun(w, now, c, []);
    assert ss[0] == Do(c);
    StepKeepsInv(m, now, Do(c));
    StepsEvolve(Apply(m, now, Do(c)).value, now, ss[1..]);
  }

  lemma FinaleIsLast(w: World, now: U64, c: Call)
    requires Exec(w, now, c).Ok? && Finale(c) != []
    ensures var log := After(w, now, c).log; log != [] && log[|log| - 1] == Finale(c)[0]
  {
    BeginKnows(w, now, c);
  }

  /** A redeem that goes through took a preimage of the hashlock, in time, from an open lock, and logged it. */
  lemma RedeemMeans(w: World, now: U64, cid: Word, preimage: Word, reply: Reply)
    requires WorldInv(w) && Exec(w, now, Redeem(cid, preimage, reply)).Ok?
    ensures cid in w.swaps && w.swaps[cid].Active() && now < w.swaps[cid].timelock
    ensures SHA256(preimage) == w.swaps[cid].hashlock
    ensures var w1 := After(w, now, Redeem(cid, preimage, reply));
      && cid in w1.swaps && w1.swaps[cid].withdrawn
      && w1.log != [] && w1.log[|w1.log| - 1] == LogRedeem(cid, preimage)
  {
    var c := Redeem(cid, preimage, reply);
    PaymentStands(w, now, c);
    FinaleIsLast(w, now, c);
    assert SwapEvolves(Begin(w, now, c).value.swaps[cid], After(w, now, c).swaps[cid], now);
  }

  /** A redeem whose payee makes no calls touches no other lock. */
  lemma PlainRedeemTouchesOne(w: World, now: U64, cid: Word, preimage: Word, other: Word)
    requires WorldInv(w) && other in w.swaps && other != cid
    ensures var w1 := After(w, now, Redeem(cid, preimage, Reply([], true)));
      other in w1.swaps && w1.swaps[other] == w.swaps[other]
  {
    var c := Redeem(cid, preimage, Reply([], true));
    if Exec(w, now, c).Ok? {
      BeginHappens(w, now, c);
      var w1 := Begin(w, now, c).value;
      assert Answer(w1, now, Paid(w1, c), c.reply) == Ok(w1);
    }
  }

  /** A refund that goes through, on either path, found an open lock whose time was up. */
  lemma RefundMeans(w: World, now: U64, c: Call)
    requires WorldInv(w) && Exec(w, now, c).Ok? && (c.Refund? || c.RefundLeg?)
    ensures var cid := c.contractId;
      && cid in w.swaps && w.swaps[cid].Active() && w.swaps[cid].timelock <= now
      && cid in After(w, now, c).swaps && After(w, now, c).swaps[cid].refunded
  {
    PaymentStands(w, now, c);
    assert SwapEvolves(Begin(w, now, c).value.swaps[c.contractId], After(w, now, c).swaps[c.contractId], now);
  }
}
