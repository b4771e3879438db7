/** The contracts' promises over whole histories, reentrant calls included. */
module LedgerTheorems {
  import opened Primitives
  import opened Sums
  import opened Ledger
  import opened SmallSteps
  import opened Effects
  import opened LedgerInvariants

  // -------- every moment foreign code runs, committed or later reverted --------

  /** `m` is a state in which a payee's code gets control while `c` runs from (`w`, `open`). */
  ghost predicate Visits(w: World, open: seq<Event>, now: U64, c: Call, m: Mid)
    decreases c
  {
    match Begin(w, now, c)
    case Err(_) => false
    case Ok(w1) =>
      && c.Pays()
      && (c.RefundLeg? ==> c.contractId in w1.legs)
      && (!c.RefundLeg? ==> c.contractId in w1.swaps)
      && RunsCode(w1, Paid(w1, c))
      && (m == Mid(w1, open + Finale(c)) || VisitsAmong(w1, open + Finale(c), now, c.reply.calls, m))
  }

  ghost predicate VisitsAmong(w: World, open: seq<Event>, now: U64, calls: seq<Call>, m: Mid)
    decreases calls
  {
    calls != [] &&
    (Visits(w, open, now, calls[0], m) || VisitsAmong(After(w, now, calls[0]), open, now, calls[1..], m))
  }

  lemma CallKeepsInv(w: World, open: seq<Event>, now: U64, c: Call)
    requires Inv(Mid(w, open))
    ensures Inv(Mid(After(w, now, c), open))
  {
    if Exec(w, now, c).Ok? {
      StepsRun(w, now, c, open);
      StepsKeepInv(Mid(w, open), now, Steps(w, now, c));
    }
  }

  /** Whatever a payee does when called, and even if it then reverts, it sees sound contracts. */
  lemma {:induction false} InvAtEveryCallback(w: World, open: seq<Event>, now: U64, c: Call, m: Mid)
    requires Inv(Mid(w, open)) && Visits(w, open, now, c, m)
    ensures Inv(m)
    decreases c
  {
    StepKeepsInv(Mid(w, open), now, Do(c));
    var w1 := Begin(w, now, c).value;
    if m != Mid(w1, open + Finale(c)) {
      InvAtCallbacksAmong(w1, open + Finale(c), now, c.reply.calls, m);
    }
  }

  lemma {:induction false} InvAtCallbacksAmong(w: World, open: seq<Event>, now: U64, calls: seq<Call>, m: Mid)
    requires Inv(Mid(w, open)) && VisitsAmong(w, open, now, calls, m)
    ensures Inv(m)
    decreases calls
  {
    if Visits(w, open, now, calls[0], m) {
      InvAtEveryCallback(w, open, now, calls[0], m);
    } else {
      CallKeepsInv(w, open, now, calls[0]);
      InvAtCallbacksAmong(After(w, now, calls[0]), open, now, calls[1..], m);
    }
  }

  /** At every transaction boundary and at every callback the HTLC can cover all open locks. */
  lemma HtlcCoversEveryLock(w: World, txs: seq<Transaction>, next: Transaction, m: Mid, k: Address)
    requires Genesis(w)
    requires m.w == History(w, txs) || Visits(History(w, txs), [], next.time, next.call, m)
    ensures Outstanding(m.w.swaps, k) <= m.w.bank.Balance(k, m.w.site.htlc)
    ensures forall cid :: cid in m.w.swaps && m.w.swaps[cid].Active() && m.w.swaps[cid].token == k ==>
              m.w.swaps[cid].amount <= m.w.bank.Balance(k, m.w.site.htlc)
  {
    var h := History(w, txs);
    HistoryKeepsInv(w, txs);
    if m.w != h {
      InvAtEveryCallback(h, [], next.time, next.call, m);
    }
    assert Surplus(m.w, k) >= 0;
    forall cid | cid in m.w.swaps && m.w.swaps[cid].Active() && m.w.swaps[cid].token == k
      ensures m.w.swaps[cid].amount <= m.w.bank.Balance(k, m.w.site.htlc)
    {
      TotalAtLeast(Claims(m.w.swaps, k), cid);
    }
  }

  // -------- storage only moves forward --------

  ghost predicate SwapEvolves(s: Swap, s1: Swap, now: U64) {
    && s1 == s.(withdrawn := s1.withdrawn, refunded := s1.refunded)
    && (s.withdrawn ==> s1.withdrawn) && (s.refunded ==> s1.refunded)
    && (s1.withdrawn && !s.withdrawn ==> now < s.timelock)
    && (s1.refunded && !s.refunded ==> s.timelock <= now)
  }

  /** What any transaction at time `now` leaves of the state before it. */
  ghost predicate Evolves(w: World, w1: World, now: U64) {
    && w1.site == w.site
    && w.log <= w1.log
    && (forall cid :: cid in w.swaps ==> cid in w1.swaps && SwapEvolves(w.swaps[cid], w1.swaps[cid], now))
    && (forall cid :: cid in w1.swaps && cid !in w.swaps ==>
          now < w1.swaps[cid].timelock && !w1.swaps[cid].refunded)
    && (forall cid :: cid in w.legs ==> cid in w1.legs && LegEvolves(w.legs[cid], w1.legs[cid]))
  }

  ghost predicate LegEvolves(leg: Leg, leg1: Leg) {
    && leg1 == leg.(refunded := leg1.refunded)
    && (leg.refunded ==> leg1.refunded)
  }

  lemma EvolvesTransitive(w: World, w1: World, w2: World, now: U64)
    requires Evolves(w, w1, now) && Evolves(w1, w2, now)
    ensures Evolves(w, w2, now)
  {
    forall cid | cid in w.swaps ensures cid in w2.swaps && SwapEvolves(w.swaps[cid], w2.swaps[cid], now) {
      assert SwapEvolves(w.swaps[cid], w1.swaps[cid], now) && SwapEvolves(w1.swaps[cid], w2.swaps[cid], now);
    }
  }

  lemma CreationEvolves(w: World, w1: World, now: U64, cid: Word, s: Swap, payer: Address)
    requires Creates(w, w1, now, cid, s, payer)
    requires w.legs.Keys <= w1.legs.Keys && forall c :: c in w.legs ==> w1.legs[c] == w.legs[c]
    ensures Evolves(w, w1, now)
  {
    assert forall c :: c in w.swaps ==> w1.swaps[c] == w.swaps[c];
  }

  lemma PaymentEvolves(w: World, w1: World, now: U64, c: Call)
    requires c.Pays() && Happened(w, w1, now, c)
    ensures Evolves(w, w1, now)
  {
    var cid := c.contractId;
    assert forall x :: x in w.swaps && x != cid ==> w1.swaps[x] == w.swaps[x];
    assert forall x :: x in w.legs && x != cid ==> w1.legs[x] == w.legs[x];
    assert w1.swaps.Keys == w.swaps.Keys;
    assert SwapEvolves(w.swaps[cid], w1.swaps[cid], now);
  }

  lemma HappenedEvolves(w: World, w1: World, now: U64, c: Call)
    requires Sane(w) && Linked(w) && Happened(w, w1, now, c)
    ensures Evolves(w, w1, now)
  {
    if c.Lock? || c.SettleLeg? {
      var e := w1.log[|w.log|];
      CreationEvolves(w, w1, now, e.contractId, w1.swaps[e.contractId],
                      if c.Lock? then c.caller else c.order.maker);
    } else if c.Pays() {
      PaymentEvolves(w, w1, now, c);
    }
  }

  lemma StepEvolves(m: Mid, now: U64, s: Step)
    requires Inv(m) && Apply(m, now, s).Some?
    ensures Evolves(m.w, Apply(m, now, s).value.w, now)
  {
    if s.Do? {
      BeginHappens(m.w, now, s.call);
      HappenedEvolves(m.w, Begin(m.w, now, s.call).value, now, s.call);
    }
  }

  lemma {:induction false} StepsEvolve(m: Mid, now: U64, ss: seq<Step>)
    requires Inv(m) && ApplyAll(m, now, ss).Some?
    ensures Evolves(m.w, ApplyAll(m, now, ss).value.w, now)
    decreases |ss|
  {
    if ss != [] {
      var m1 := Apply(m, now, ss[0]).value;
      StepKeepsInv(m, now, ss[0]);
      StepEvolves(m, now, ss[0]);
      StepsEvolve(m1, now, ss[1..]);
      EvolvesTransitive(m.w, m1.w, ApplyAll(m, now, ss).value.w, now);
    }
  }

  /** One transaction, however deeply it reenters, only moves storage forward. */
  lemma ExecEvolves(w: World, now: U64, c: Call)
    requires WorldInv(w)
    ensures Evolves(w, After(w, now, c), now)
    ensures WorldInv(After(w, now, c))
  {
    ExecKeepsInv(w, now, c);
    if Exec(w, now, c).Ok? {
      StepsRun(w, now, c, []);
      StepsEvolve(Mid(w, []), now, Steps(w, now, c));
    }
  }

  // -------- which preimages a transaction can publish --------

  /** Opening `hashlock` takes one of the `known` preimages. */
  ghost predicate Opens(p: Word, hashlock: Word, known: set<Word>) {
    SHA256(p) == hashlock ==> p in known
  }

  ghost predicate UsesKnown(c: Call, hashlock: Word, known: set<Word>) {
    c.Redeem? ==> Opens(c.preimage, hashlock, known)
  }

  ghost predicate TreeUsesKnown(c: Call, hashlock: Word, known: set<Word>) {
    Throughout(c, (x: Call) => UsesKnown(x, hashlock, known))
  }

  ghost predicate EventKnown(e: Event, hashlock: Word, known: set<Word>) {
    e.LogRedeem? ==> Opens(e.preimage, hashlock, known)
  }

  ghost predicate NewsKnown(m: Mid, from: nat, hashlock: Word, known: set<Word>) {
    && (forall i :: from <= i < |m.w.log| ==> EventKnown(m.w.log[i], hashlock, known))
    && (forall i :: 0 <= i < |m.open| ==> EventKnown(m.open[i], hashlock, known))
  }

  lemma LogAfter(w: World, w1: World, now: U64, c: Call)
    requires Happened(w, w1, now, c)
    ensures w1.log == w.log || (|w1.log| == |w.log| + 1 && w1.log[..|w.log|] == w.log && !w1.log[|w.log|].LogRedeem?)
  {}

  lemma StepPublishesKnown(m: Mid, now: U64, s: Step, from: nat, hashlock: Word, known: set<Word>)
    requires Inv(m) && Apply(m, now, s).Some? && NewsKnown(m, from, hashlock, known) && from <= |m.w.log|
    requires s.Do? ==> UsesKnown(s.call, hashlock, known)
    ensures NewsKnown(Apply(m, now, s).value, from, hashlock, known)
  {
    if s.Do? {
      var w1 := Begin(m.w, now, s.call).value;
      BeginHappens(m.w, now, s.call);
      LogAfter(m.w, w1, now, s.call);
      NewsAfterBegin(m, w1, s.call, from, hashlock, known);
    }
  }

  lemma NewsAfterBegin(m: Mid, w1: World, c: Call, from: nat, hashlock: Word, known: set<Word>)
    requires NewsKnown(m, from, hashlock, known) && from <= |m.w.log| && UsesKnown(c, hashlock, known)
    requires w1.log == m.w.log
      || (|w1.log| == |m.w.log| + 1 && w1.log[..|m.w.log|] == m.w.log && !w1.log[|m.w.log|].LogRedeem?)
    ensures NewsKnown(Mid(w1, m.open + Finale(c)), from, hashlock, known)
  {
    forall i | from <= i < |w1.log| ensures EventKnown(w1.log[i], hashlock, known) {
      if i < |m.w.log| {
        assert w1.log[..|m.w.log|][i] == m.w.log[i];
      }
    }
  }

  lemma {:induction false} StepsPublishKnown(
    m: Mid, now: U64, ss: seq<Step>, from: nat, hashlock: Word, known: set<Word>)
    requires Inv(m) && ApplyAll(m, now, ss).Some? && NewsKnown(m, from, hashlock, known) && from <= |m.w.log|
    requires StepsFrom(ss, (x: Call) => UsesKnown(x, hashlock, known))
    ensures NewsKnown(ApplyAll(m, now, ss).value, from, hashlock, known)
    decreases |ss|
  {
    if ss != [] {
      var m1 := Apply(m, now, ss[0]).value;
      StepPublishesKnown(m, now, ss[0], from, hashlock, known);
      StepKeepsInv(m, now, ss[0]);
      StepEvolves(m, now, ss[0]);
      forall i | 0 <= i < |ss[1..]| && ss[1..][i].Do? ensures UsesKnown(ss[1..][i].call, hashlock, known) {
        assert ss[1..][i] == ss[i + 1];
      }
      StepsPublishKnown(m1, now, ss[1..], from, hashlock, known);
    }
  }

  /** A call tree can only log preimages of `hashlock` that it was given. */
  lemma ExecPublishesKnown(w: World, now: U64, c: Call, hashlock: Word, known: set<Word>)
    requires WorldInv(w) && TreeUsesKnown(c, hashlock, known)
    ensures var w1 := After(w, now, c);
      forall i :: |w.log| <= i < |w1.log| ==> EventKnown(w1.log[i], hashlock, known)
  {
    if Exec(w, now, c).Ok? {
      StepsRun(w, now, c, []);
      StepsComeFromTree(w, now, c, (x: Call) => UsesKnown(x, hashlock, known));
      StepsPublishKnown(Mid(w, []), now, Steps(w, now, c), |w.log|, hashlock, known);
    }
  }

  // -------- exact conservation when nobody donates --------

  /** The call gives `who` nothing and names it as nobody's recipient. */
  ghost predicate GivesNothing(c: Call, who: Address) {
    && GiftTo(c) != Some(who)
    && ((c.Lock? || c.SettleLeg?) ==> c.recipient != who)
  }

  ghost predicate TreeGivesNothing(c: Call, who: Address) {
    Throughout(c, (x: Call) => GivesNothing(x, who))
  }

  ghost predicate NobodysRecipient(w: World, who: Address) {
    forall cid :: cid in w.swaps ==> w.swaps[cid].recipient != who
  }

  lemma StepBalances(m: Mid, now: U64, s: Step, who: Address, k: Address)
    requires Inv(m) && Apply(m, now, s).Some?
    ensures var w1 := Apply(m, now, s).value.w;
      && Surplus(w1, k) >= Surplus(m.w, k)
      && w1.bank.Balance(k, m.w.site.settlement) >= m.w.bank.Balance(k, m.w.site.settlement)
    ensures NobodysRecipient(m.w, who) && (s.Do? ==> GivesNothing(s.call, who)) ==>
      var w1 := Apply(m, now, s).value.w;
      && NobodysRecipient(w1, who)
      && (who == m.w.site.htlc ==> Surplus(w1, k) == Surplus(m.w, k))
      && (who == m.w.site.settlement ==>
            w1.bank.Balance(k, who) == m.w.bank.Balance(k, who))
  {
    if s.Do? {
      var w1 := Begin(m.w, now, s.call).value;
      BeginHappens(m.w, now, s.call);
      SurplusAfter(m.w, w1, now, s.call, k);
      SettlementBalanceAfter(m.w, w1, now, s.call, k);
      if GivesNothing(s.call, who) && NobodysRecipient(m.w, who) {
        RecipientsAfter(m.w, w1, now, s.call, who);
      }
    }
  }

  lemma RecipientsAfter(w: World, w1: World, now: U64, c: Call, who: Address)
    requires NobodysRecipient(w, who) && GivesNothing(c, who) && Happened(w, w1, now, c)
    ensures NobodysRecipient(w1, who)
  {}

  lemma {:induction false} StepsNeverLose(m: Mid, now: U64, ss: seq<Step>, k: Address)
    requires Inv(m) && ApplyAll(m, now, ss).Some?
    ensures var w1 := ApplyAll(m, now, ss).value.w;
      && Surplus(w1, k) >= Surplus(m.w, k)
      && w1.bank.Balance(k, m.w.site.settlement) >= m.w.bank.Balance(k, m.w.site.settlement)
    decreases |ss|
  {
    if ss != [] {
      StepBalances(m, now, ss[0], m.w.site.htlc, k);
      StepKeepsInv(m, now, ss[0]);
      StepEvolves(m, now, ss[0]);
      StepsNeverLose(Apply(m, now, ss[0]).value, now, ss[1..], k);
    }
  }

  /** Nothing is gained either: the HTLC's surplus, or Settlement's balance, is what it was. */
  ghost predicate Unmoved(w: World, w1: World, who: Address, k: Address) {
    && w1.site == w.site
    && NobodysRecipient(w1, who)
    && (who == w.site.htlc ==> Surplus(w1, k) == Surplus(w, k))
    && (who == w.site.settlement ==> w1.bank.Balance(k, who) == w.bank.Balance(k, who))
  }

  lemma {:induction false} StepsNeverGain(m: Mid, now: U64, ss: seq<Step>, who: Address, k: Address)
    requires Inv(m) && ApplyAll(m, now, ss).Some? && NobodysRecipient(m.w, who)
    requires StepsFrom(ss, (x: Call) => GivesNothing(x, who))
    ensures Unmoved(m.w, ApplyAll(m, now, ss).value.w, who, k)
    decreases |ss|
  {
    if ss != [] {
      StepBalances(m, now, ss[0], who, k);
      StepKeepsInv(m, now, ss[0]);
      StepEvolves(m, now, ss[0]);
      forall i | 0 <= i < |ss[1..]| && ss[1..][i].Do? ensures GivesNothing(ss[1..][i].call, who) {
        assert ss[1..][i] == ss[i + 1];
      }
      StepsNeverGain(Apply(m, now, ss[0]).value, now, ss[1..], who, k);
    }
  }

  lemma ExecNeverGains(w: World, now: U64, c: Call, who: Address, k: Address)
    requires WorldInv(w) && TreeGivesNothing(c, who) && NobodysRecipient(w, who)
    ensures Unmoved(w, After(w, now, c), who, k)
  {
    if Exec(w, now, c).Ok? {
      StepsRun(w, now, c, []);
      StepsComeFromTree(w, now, c, (x: Call) => GivesNothing(x, who));
      StepsNeverGain(Mid(w, []), now, Steps(w, now, c), who, k);
    }
  }

  /**
   * One call, reentrancy included: the HTLC's surplus over its open locks and
   * Settlement's own balance never fall, and stay exactly the same when nobody
   * sends them money or names them recipient. For `settleLeg` and `refundLeg`
   * this says Settlement passes on precisely what it takes in.
   */
  lemma ExecConserves(w: World, now: U64, c: Call, k: Address)
    requires WorldInv(w)
    ensures var w1 := After(w, now, c);
      && Surplus(w1, k) >= Surplus(w, k)
      && w1.bank.Balance(k, w.site.settlement) >= w.bank.Balance(k, w.site.settlement)
    ensures TreeGivesNothing(c, w.site.htlc) && NobodysRecipient(w, w.site.htlc) ==>
      Surplus(After(w, now, c), k) == Surplus(w, k)
    ensures TreeGivesNothing(c, w.site.settlement) && NobodysRecipient(w, w.site.settlement) ==>
      After(w, now, c).bank.Balance(k, w.site.settlement) == w.bank.Balance(k, w.site.settlement)
  {
    if Exec(w, now, c).Ok? {
      StepsRun(w, now, c, []);
      StepsNeverLose(Mid(w, []), now, Steps(w, now, c), k);
    }
    if TreeGivesNothing(c, w.site.htlc) && NobodysRecipient(w, w.site.htlc) {
      ExecNeverGains(w, now, c, w.site.htlc, k);
    }
    if TreeGivesNothing(c, w.site.settlement) && NobodysRecipient(w, w.site.settlement) {
      ExecNeverGains(w, now, c, w.site.settlement, k);
    }
  }

  /**
   * What Settlement itself does in one `settleLeg` or `refundLeg` leaves every
   * balance of its own as it was, whoever the locks name as recipients.
   */
  lemma SettlementPassesOn(w: World, now: U64, c: Call, k: Address)
    requires WorldInv(w) && (c.SettleLeg? || c.RefundLeg?) && Begin(w, now, c).Ok?
    ensures Begin(w, now, c).value.bank.Balance(k, w.site.settlement) == w.bank.Balance(k, w.site.settlement)
  {
    BeginHappens(w, now, c);
    SettlementBalanceAfter(w, Begin(w, now, c).value, now, c, k);
  }

  ghost predicate HistoryGivesNothing(txs: seq<Transaction>, who: Address) {
    forall i :: 0 <= i < |txs| ==> TreeGivesNothing(txs[i].call, who)
  }

  /** Without donations every unit the HTLC holds beyond its deployment balance backs an open lock. */
  lemma {:induction false} HtlcHoldsExactlyTheLocks(w: World, txs: seq<Transaction>, k: Address)
    requires Genesis(w) && HistoryGivesNothing(txs, w.site.htlc)
    ensures var h := History(w, txs);
      && h.site == w.site && NobodysRecipient(h, w.site.htlc)
      && h.bank.Balance(k, w.site.htlc) == w.bank.Balance(k, w.site.htlc) + Outstanding(h.swaps, k)
    decreases |txs|
  {
    if txs == [] {
      assert Claims(w.swaps, k) == map[];
    } else {
      var n := |txs| - 1;
      HtlcHoldsExactlyTheLocks(w, txs[..n], k);
      HistoryKeepsInv(w, txs[..n]);
      ExecNeverGains(History(w, txs[..n]), txs[n].time, txs[n].call, w.site.htlc, k);
    }
  }

  // -------- legs and nonces over histories --------

  /** What a leg settled under `cid` has paid out so far, and to whom. */
  ghost predicate LegAccount(w: World, cid: Word)
    requires cid in w.legs && cid in w.swaps
  {
    var leg, s := w.legs[cid], w.swaps[cid];
    var out, back := PayoutsOf(w.payouts, cid), PayoutsOf(w.forwards, cid);
    // nobody has been paid yet,
    || (s.Active() && !leg.refunded && out == [] && back == [])
    // or the recipient alone, in time,
    || (s.withdrawn && !leg.refunded && |out| == 1 && back == []
        && out[0].to == s.recipient && out[0].token == leg.token && out[0].amount == leg.amount
        && out[0].time < s.timelock)
    // or the maker alone, once the time was up
    || (s.refunded && leg.refunded && |out| == 1 && |back| == 1
        && out[0].to == w.site.settlement
        && back[0].to == leg.maker && back[0].token == leg.token && back[0].amount == leg.amount
        && s.timelock <= back[0].time)
  }

  /** A settled leg pays its amount to one party at most, whoever sends the transactions. */
  lemma LegPaysOneParty(w: World, txs: seq<Transaction>, cid: Word)
    requires Genesis(w)
    ensures var h := History(w, txs);
      cid in h.legs ==> cid in h.swaps && LegAccount(h, cid)
  {
    HistoryKeepsInv(w, txs);
    var h := History(w, txs);
    if cid in h.legs {
      assert PaidFor(h, cid);
      assert LegMatches(h, h.legs[cid], h.swaps[cid]);
    }
  }

  /** Settlement's leg records are exactly the HTLC locks it owns, and they agree. */
  lemma LegsAreSettlementLocks(w: World, txs: seq<Transaction>, cid: Word)
    requires Genesis(w)
    ensures var h := History(w, txs);
      && (cid in h.legs <==> cid in h.swaps && h.swaps[cid].sender == h.site.settlement)
      && (cid in h.legs ==>
            && h.legs[cid].maker != 0
            && h.legs[cid].token == h.swaps[cid].token
            && h.legs[cid].amount == h.swaps[cid].amount
            && h.legs[cid].refunded == h.swaps[cid].refunded)
  {
    HistoryKeepsInv(w, txs);
    var h := History(w, txs);
    if cid in h.legs {
      assert LegMatches(h, h.legs[cid], h.swaps[cid]);
    }
  }

  ghost predicate LegKept(w: World, cid: Word, leg: Leg) {
    cid in w.legs && LegEvolves(leg, w.legs[cid])
  }

  lemma ExecKeepsLeg(w: World, now: U64, c: Call, cid: Word, leg: Leg)
    requires WorldInv(w) && LegKept(w, cid, leg)
    ensures LegKept(After(w, now, c), cid, leg)
  {
    ExecEvolves(w, now, c);
    assert LegEvolves(w.legs[cid], After(w, now, c).legs[cid]);
  }

  lemma {:induction false} HistoryKeepsLeg(w: World, txs: seq<Transaction>, cid: Word, leg: Leg)
    requires WorldInv(w) && LegKept(w, cid, leg)
    ensures WorldInv(History(w, txs)) && LegKept(History(w, txs), cid, leg)
    decreases |txs|
  {
    if txs != [] {
      var last := |txs| - 1;
      HistoryKeepsLeg(w, txs[..last], cid, leg);
      ExecKeepsInv(History(w, txs[..last]), txs[last].time, txs[last].call);
      ExecKeepsLeg(History(w, txs[..last]), txs[last].time, txs[last].call, cid, leg);
    }
  }

  /** A committed leg record keeps its maker, token and amount through every later history. */
  lemma LegNeverOverwritten(w: World, past: seq<Transaction>, later: seq<Transaction>, cid: Word)
    requires Genesis(w)
    requires cid in History(w, past).legs
    ensures var h := History(w, past);
      cid in History(h, later).legs &&
      var leg, leg1 := h.legs[cid], History(h, later).legs[cid];
      && leg1.maker == leg.maker && leg1.token == leg.token && leg1.amount == leg.amount
      && (leg.refunded ==> leg1.refunded)
  {
    HistoryKeepsInv(w, past);
    HistoryKeepsLeg(History(w, past), later, cid, History(w, past).legs[cid]);
  }

  lemma {:induction false} CommitsDiffer(commits: seq<Commit>, i: nat, j: nat)
    requires CommittedOnce(commits) && i < j < |commits|
    ensures (commits[i].maker, commits[i].nonce) != (commits[j].maker, commits[j].nonce)
    ensures commits[i].leg.Some? ==> commits[i].leg != commits[j].leg
  {
    var n := |commits| - 1;
    if j == n {
      CommitIncluded(commits[..n], i);
    } else {
      CommitsDiffer(commits[..n], i, j);
    }
  }

  lemma {:induction false} CommitIncluded(commits: seq<Commit>, i: nat)
    requires i < |commits|
    ensures (commits[i].maker, commits[i].nonce) in NoncesOf(commits)
    ensures commits[i].leg.Some? ==> commits[i].leg.value in LegsOf(commits)
  {
    if i < |commits| - 1 {
      CommitIncluded(commits[..|commits| - 1], i);
    }
  }

  lemma {:induction false} NonceWasCommitted(commits: seq<Commit>, maker: Address, nonce: U64) returns (i: nat)
    requires (maker, nonce) in NoncesOf(commits)
    ensures i < |commits| && commits[i].maker == maker && commits[i].nonce == nonce
  {
    var n := |commits| - 1;
    if commits[n].maker == maker && commits[n].nonce == nonce {
      i := n;
    } else {
      i := NonceWasCommitted(commits[..n], maker, nonce);
    }
  }

  /**
   * Over any history at most one `authorizeLeg` or `settleLeg` commits per
   * (maker, nonce), no leg is committed under two nonces, and a nonce is
   * consumed only by a commit: a reverted call leaves it free.
   */
  lemma NonceCommitsOnce(w: World, txs: seq<Transaction>)
    requires Genesis(w)
    ensures var h := History(w, txs);
      && (forall i, j :: 0 <= i < j < |h.commits| ==>
            && (h.commits[i].maker, h.commits[i].nonce) != (h.commits[j].maker, h.commits[j].nonce)
            && (h.commits[i].leg.Some? ==> h.commits[i].leg != h.commits[j].leg))
      && (forall maker, nonce :: (maker, nonce) in h.nonces ==>
            exists i :: 0 <= i < |h.commits| && h.commits[i].maker == maker && h.commits[i].nonce == nonce)
      && (forall i :: 0 <= i < |h.commits| ==> (h.commits[i].maker, h.commits[i].nonce) in h.nonces)
  {
    HistoryKeepsInv(w, txs);
    var h := History(w, txs);
    forall i, j | 0 <= i < j < |h.commits|
      ensures (h.commits[i].maker, h.commits[i].nonce) != (h.commits[j].maker, h.commits[j].nonce)
      ensures h.commits[i].leg.Some? ==> h.commits[i].leg != h.commits[j].leg
    {
      CommitsDiffer(h.commits, i, j);
    }
    forall maker, nonce | (maker, nonce) in h.nonces
      ensures exists i :: 0 <= i < |h.commits| && h.commits[i].maker == maker && h.commits[i].nonce == nonce
    {
      var i := NonceWasCommitted(h.commits, maker, nonce);
    }
    forall i | 0 <= i < |h.commits| ensures (h.commits[i].maker, h.commits[i].nonce) in h.nonces {
      CommitIncluded(h.commits, i);
    }
  }
}
