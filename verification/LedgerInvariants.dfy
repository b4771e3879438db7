/** What holds of the two contracts at every step of every history. */
module LedgerInvariants {
  import opened Primitives
  import opened Encoding
  import opened Sums
  import opened Ledger
  import opened SmallSteps
  import opened Effects

  // -------- storage is sane, and the contracts' money cannot be pulled --------

  ghost predicate SaneSwap(w: World, cid: Word, s: Swap) {
    && s.sender != 0 && s.sender != w.site.htlc
    && s.amount > 0 && s.hashlock != 0
    && !(s.withdrawn && s.refunded)
    && cid == ContractId(s.sender, s.recipient, s.token, s.amount, s.hashlock, s.timelock)
  }

  ghost predicate Sane(w: World) {
    && w.site.Valid()
    && forall cid :: cid in w.swaps ==> SaneSwap(w, cid, w.swaps[cid])
  }

  // -------- money --------

  /** What lock `s` still claims of asset `k`. */
  function Claim(s: Swap, k: Address): nat {
    if s.Active() && s.token == k then s.amount else 0
  }

  ghost function Claims(swaps: map<Word, Swap>, k: Address): map<Word, nat> {
    map cid | cid in swaps :: Claim(swaps[cid], k)
  }

  /** The sum of the amounts of all locks in `k` neither withdrawn nor refunded. */
  ghost function Outstanding(swaps: map<Word, Swap>, k: Address): nat {
    Total(Claims(swaps, k))
  }

  lemma OutstandingUpdate(swaps: map<Word, Swap>, cid: Word, s: Swap, k: Address)
    ensures Outstanding(swaps[cid := s], k)
         == Outstanding(swaps, k) + Claim(s, k) - (if cid in swaps then Claim(swaps[cid], k) else 0)
  {
    assert Claims(swaps[cid := s], k) == Claims(swaps, k)[cid := Claim(s, k)];
    TotalUpdate(Claims(swaps, k), cid, Claim(s, k));
  }

  ghost function Surplus(w: World, k: Address): int {
    w.bank.Balance(k, w.site.htlc) - Outstanding(w.swaps, k)
  }

  ghost predicate Solvent(w: World) {
    forall k: Address :: Surplus(w, k) >= 0
  }

  // -------- Settlement and HTLC agree --------

  ghost predicate LegMatches(w: World, leg: Leg, s: Swap) {
    && s.sender == w.site.settlement
    && w.site.External(leg.maker)
    && leg.token == s.token && leg.amount == s.amount
    && leg.refunded == s.refunded
  }

  ghost predicate Linked(w: World) {
    && (forall cid :: cid in w.legs ==> cid in w.swaps && LegMatches(w, w.legs[cid], w.swaps[cid]))
    && (forall cid :: cid in w.swaps && w.swaps[cid].sender == w.site.settlement ==> cid in w.legs)
  }

  // -------- every lock pays out at most once --------

  function PayoutsOf(ps: seq<Payout>, cid: Word): seq<Payout> {
    if ps == [] then []
    else
      var last := ps[|ps| - 1];
      PayoutsOf(ps[..|ps| - 1], cid) + (if last.contractId == cid then [last] else [])
  }

  lemma PayoutsGrow(ps: seq<Payout>, p: Payout, cid: Word)
    ensures PayoutsOf(ps + [p], cid) == PayoutsOf(ps, cid) + (if p.contractId == cid then [p] else [])
  {
    assert (ps + [p])[..|ps|] == ps;
  }

  /** The payments a lock in state `s` has caused: none, one redeem, or one refund. */
  ghost predicate PaidAs(ps: seq<Payout>, cid: Word, s: Swap) {
    if s.withdrawn then
      |ps| == 1 && ps[0] == Payout(cid, s.recipient, s.token, s.amount, ps[0].time) && ps[0].time < s.timelock
    else if s.refunded then
      |ps| == 1 && ps[0] == Payout(cid, s.sender, s.token, s.amount, ps[0].time) && s.timelock <= ps[0].time
    else ps == []
  }

  ghost predicate ForwardedAs(fs: seq<Payout>, cid: Word, leg: Leg, s: Swap) {
    if leg.refunded then
      |fs| == 1 && fs[0] == Payout(cid, leg.maker, leg.token, leg.amount, fs[0].time) && s.timelock <= fs[0].time
    else fs == []
  }

  ghost predicate PaidFor(w: World, cid: Word) {
    && (if cid in w.swaps then PaidAs(PayoutsOf(w.payouts, cid), cid, w.swaps[cid])
        else PayoutsOf(w.payouts, cid) == [])
    && (if cid in w.legs && cid in w.swaps
        then ForwardedAs(PayoutsOf(w.forwards, cid), cid, w.legs[cid], w.swaps[cid])
        else PayoutsOf(w.forwards, cid) == [])
  }

  ghost predicate PaidOnce(w: World) {
    forall cid: Word :: PaidFor(w, cid)
  }

  // -------- nonces --------

  ghost function NoncesOf(commits: seq<Commit>): set<(Address, U64)> {
    if commits == [] then {}
    else
      var last := commits[|commits| - 1];
      NoncesOf(commits[..|commits| - 1]) + {(last.maker, last.nonce)}
  }

  ghost function LegsOf(commits: seq<Commit>): set<Word> {
    if commits == [] then {}
    else
      var last := commits[|commits| - 1];
      LegsOf(commits[..|commits| - 1]) + (if last.leg.Some? then {last.leg.value} else {})
  }

  /** No nonce and no leg is committed twice. */
  ghost predicate CommittedOnce(commits: seq<Commit>) {
    commits != [] ==>
      var front, last := commits[..|commits| - 1], commits[|commits| - 1];
      && CommittedOnce(front)
      && (last.maker, last.nonce) !in NoncesOf(front)
      && (last.leg.Some? ==> last.leg.value !in LegsOf(front))
  }

  ghost predicate LegsOfTheirMakers(w: World) {
    forall c :: c in w.commits && c.leg.Some? ==> c.leg.value in w.legs && w.legs[c.leg.value].maker == c.maker
  }

  /** Consumed nonces and leg records are exactly the committed ones, each committed once. */
  ghost predicate NoncesOnce(w: World) {
    && w.nonces == NoncesOf(w.commits)
    && w.legs.Keys == LegsOf(w.commits)
    && CommittedOnce(w.commits)
    && LegsOfTheirMakers(w)
  }

  // -------- the event log tells what storage holds --------

  function Creation(cid: Word, s: Swap): Event {
    LogNewSwap(cid, s.sender, s.recipient, s.token, s.amount, s.hashlock, s.timelock)
  }

  /** An event about a lock that exists and has the matching flag set. */
  ghost predicate Backed(w: World, e: Event) {
    && e.contractId in w.swaps
    && var s := w.swaps[e.contractId];
       match e
       case LogNewSwap(cid, _, _, _, _, _, _) => e == Creation(cid, s)
       case LogRedeem(_, p) => s.withdrawn && SHA256(p) == s.hashlock
       case LogRefund(_) => s.refunded
  }

  ghost predicate Recorded(log: seq<Event>, open: seq<Event>, cid: Word, s: Swap) {
    && Creation(cid, s) in log
    && (s.withdrawn ==> exists p :: LogRedeem(cid, p) in log + open)
    && (s.refunded ==> LogRefund(cid) in log + open)
  }

  ghost predicate Logged(m: Mid) {
    && (forall i :: 0 <= i < |m.w.log| ==> Backed(m.w, m.w.log[i]))
    && (forall i :: 0 <= i < |m.open| ==> Backed(m.w, m.open[i]) && !m.open[i].LogNewSwap?)
    && (forall cid :: cid in m.w.swaps ==> Recorded(m.w.log, m.open, cid, m.w.swaps[cid]))
  }

  /** Among the first `i` entries lock `e.contractId` was created, under a hashlock `e` opens. */
  ghost predicate Announced(log: seq<Event>, i: nat, e: Event)
    requires i <= |log|
  {
    exists j :: 0 <= j < i && log[j].LogNewSwap? && log[j].contractId == e.contractId
                && (e.LogRedeem? ==> log[j].hashlock == SHA256(e.preimage))
  }

  /** Locks are announced once each, and before anything else about them. */
  ghost predicate WellFormedLog(log: seq<Event>) {
    && (forall i, j :: 0 <= i < j < |log| && log[i].LogNewSwap? && log[j].LogNewSwap? ==>
          log[i].contractId != log[j].contractId)
    && (forall i :: 0 <= i < |log| && !log[i].LogNewSwap? ==> Announced(log, i, log[i]))
  }

  ghost predicate Inv(m: Mid) {
    && Sane(m.w)
    && ContractsApproveNobody(m.w)
    && Solvent(m.w)
    && Linked(m.w)
    && PaidOnce(m.w)
    && NoncesOnce(m.w)
    && Logged(m)
    && WellFormedLog(m.w.log)
  }

  ghost predicate WorldInv(w: World) { Inv(Mid(w, [])) }

  // -------- the part of a call before any callback keeps each of them --------

  lemma SaneAfter(w: World, w1: World, now: U64, c: Call)
    requires Sane(w) && Happened(w, w1, now, c)
    ensures Sane(w1)
  {}

  lemma GuardedAfter(w: World, w1: World, now: U64, c: Call)
    requires ContractsApproveNobody(w) && Happened(w, w1, now, c)
    ensures ContractsApproveNobody(w1)
  {}

  /** Units given to `who` without a claim attached to them. */
  ghost predicate GivesTo(w: World, c: Call, who: Address) {
    || GiftTo(c) == Some(who)
    || (c.Redeem? && c.contractId in w.swaps && w.swaps[c.contractId].recipient == who)
  }

  lemma CreationKeepsSurplus(w: World, w1: World, now: U64, cid: Word, s: Swap, payer: Address, k: Address)
    requires w.site.Valid() && Creates(w, w1, now, cid, s, payer)
    ensures Surplus(w1, k) == Surplus(w, k)
  {
    OutstandingUpdate(w.swaps, cid, s, k);
  }

  lemma RedeemKeepsSurplus(w: World, w1: World, now: U64, cid: Word, preimage: Word, k: Address)
    requires w.site.Valid() && Redeems(w, w1, now, cid, preimage)
    ensures Surplus(w1, k) >= Surplus(w, k)
    ensures w.swaps[cid].recipient != w.site.htlc ==> Surplus(w1, k) == Surplus(w, k)
  {
    OutstandingUpdate(w.swaps, cid, w1.swaps[cid], k);
  }

  lemma RefundKeepsSurplus(w: World, w1: World, now: U64, cid: Word, k: Address)
    requires Sane(w) && (Refunds(w, w1, now, cid) || RefundsLeg(w, w1, now, cid))
    requires RefundsLeg(w, w1, now, cid) ==> w.legs[cid].maker != w.site.htlc
    ensures Surplus(w1, k) == Surplus(w, k)
  {
    OutstandingUpdate(w.swaps, cid, w1.swaps[cid], k);
  }

  /** Locks, payouts and refunds leave the HTLC's surplus alone; only gifts raise it. */
  lemma SurplusAfter(w: World, w1: World, now: U64, c: Call, k: Address)
    requires Sane(w) && Linked(w) && Happened(w, w1, now, c)
    ensures Surplus(w1, k) >= Surplus(w, k)
    ensures !GivesTo(w, c, w.site.htlc) ==> Surplus(w1, k) == Surplus(w, k)
  {
    match c
    case Lock(caller, _, recipient, token, amount, hashlock, timelock) =>
      var cid := ContractId(caller, recipient, token, amount, hashlock, timelock);
      CreationKeepsSurplus(w, w1, now, cid, w1.swaps[cid], caller, k);
    case SettleLeg(_, _, order, _, recipient, hashlock, timelock) =>
      var cid := ContractId(w.site.settlement, recipient, order.sellToken, order.sellAmount, hashlock, timelock);
      CreationKeepsSurplus(w, w1, now, cid, w1.swaps[cid], order.maker, k);
    case Redeem(cid, preimage, _) => RedeemKeepsSurplus(w, w1, now, cid, preimage, k);
    case Refund(_, cid, _) => RefundKeepsSurplus(w, w1, now, cid, k);
    case RefundLeg(cid, _) => RefundKeepsSurplus(w, w1, now, cid, k);
    case _ =>
  }

  /** Settlement keeps what it had: what a leg brings in, the same leg takes out. */
  lemma SettlementBalanceAfter(w: World, w1: World, now: U64, c: Call, k: Address)
    requires Sane(w) && Linked(w) && Happened(w, w1, now, c)
    ensures w1.bank.Balance(k, w.site.settlement) >= w.bank.Balance(k, w.site.settlement)
    ensures !GivesTo(w, c, w.site.settlement) ==>
      w1.bank.Balance(k, w.site.settlement) == w.bank.Balance(k, w.site.settlement)
  {}

  lemma SolventAfter(w: World, w1: World, now: U64, c: Call)
    requires Sane(w) && Linked(w) && Solvent(w) && Happened(w, w1, now, c)
    ensures Solvent(w1)
  {
    forall k: Address ensures Surplus(w1, k) >= 0 {
      SurplusAfter(w, w1, now, c, k);
    }
  }

  lemma LinkedAfter(w: World, w1: World, now: U64, c: Call)
    requires Sane(w) && Linked(w) && Happened(w, w1, now, c)
    ensures Linked(w1)
  {
    if c.Pays() {
      LinkedAfterPayment(w, w1, now, c);
    } else if c.Lock? || c.SettleLeg? {
      assert forall cid :: cid in w.legs ==> LegMatches(w, w.legs[cid], w.swaps[cid]);
    }
  }

  lemma LinkedAfterPayment(w: World, w1: World, now: U64, c: Call)
    requires Sane(w) && Linked(w) && Happened(w, w1, now, c) && c.Pays()
    ensures Linked(w1)
  {
    assert forall cid :: cid in w.legs ==> LegMatches(w, w.legs[cid], w.swaps[cid]);
    assert w1.swaps.Keys == w.swaps.Keys && w1.legs.Keys == w.legs.Keys;
    forall cid | cid in w1.legs ensures LegMatches(w1, w1.legs[cid], w1.swaps[cid]) {
      assert LegMatches(w, w.legs[cid], w.swaps[cid]);
    }
  }

  lemma RedeemPaysOnce(w: World, w1: World, now: U64, cid: Word, preimage: Word, x: Word)
    requires PaidFor(w, x) && Redeems(w, w1, now, cid, preimage)
    requires cid in w.legs ==> w.legs[cid].refunded == w.swaps[cid].refunded
    ensures PaidFor(w1, x)
  {
    var s := w.swaps[cid];
    PayoutsGrow(w.payouts, Payout(cid, s.recipient, s.token, s.amount, now), x);
  }

  lemma RefundPaysOnce(w: World, w1: World, now: U64, cid: Word, x: Word)
    requires PaidFor(w, x) && Refunds(w, w1, now, cid) && cid !in w.legs
    ensures PaidFor(w1, x)
  {
    var s := w.swaps[cid];
    PayoutsGrow(w.payouts, Payout(cid, s.sender, s.token, s.amount, now), x);
  }

  lemma RefundLegPaysOnce(w: World, w1: World, now: U64, cid: Word, x: Word)
    requires PaidFor(w, x) && RefundsLeg(w, w1, now, cid)
    ensures PaidFor(w1, x)
  {
    var s, leg := w.swaps[cid], w.legs[cid];
    PayoutsGrow(w.payouts, Payout(cid, s.sender, s.token, s.amount, now), x);
    PayoutsGrow(w.forwards, Payout(cid, leg.maker, leg.token, leg.amount, now), x);
  }

  lemma PaidOnceAfter(w: World, w1: World, now: U64, c: Call)
    requires Sane(w) && Linked(w) && PaidOnce(w) && Happened(w, w1, now, c)
    ensures PaidOnce(w1)
  {
    forall x: Word ensures PaidFor(w1, x) {
      assert PaidFor(w, x);
      match c
      case Redeem(cid, preimage, _) => RedeemPaysOnce(w, w1, now, cid, preimage, x);
      case Refund(_, cid, _) => RefundPaysOnce(w, w1, now, cid, x);
      case RefundLeg(cid, _) => RefundLegPaysOnce(w, w1, now, cid, x);
      case _ =>
    }
  }

  lemma NoncesAfterCommit(w: World, w1: World, commit: Commit)
    requires NoncesOnce(w)
    requires (commit.maker, commit.nonce) !in w.nonces
    requires w1.nonces == w.nonces + {(commit.maker, commit.nonce)} && w1.commits == w.commits + [commit]
    requires match commit.leg
      case None => w1.legs == w.legs
      case Some(cid) => cid !in w.legs && cid in w1.legs && w1.legs == w.legs[cid := w1.legs[cid]]
                        && w1.legs[cid].maker == commit.maker
    ensures NoncesOnce(w1)
  {
    assert w1.commits[..|w.commits|] == w.commits;
    assert w1.legs.Keys == w.legs.Keys + (if commit.leg.Some? then {commit.leg.value} else {});
    forall c | c in w1.commits && c.leg.Some?
      ensures c.leg.value in w1.legs && w1.legs[c.leg.value].maker == c.maker
    {
      assert c in w.commits || c == commit;
    }
  }

  lemma NoncesAfter(w: World, w1: World, now: U64, c: Call)
    requires Sane(w) && Linked(w) && NoncesOnce(w) && Happened(w, w1, now, c)
    ensures NoncesOnce(w1)
  {
    match c
    case SettleLeg(_, _, order, _, recipient, hashlock, timelock) =>
      var cid := ContractId(w.site.settlement, recipient, order.sellToken, order.sellAmount, hashlock, timelock);
      NoncesAfterCommit(w, w1, Commit(order.maker, order.nonce, Some(cid)));
    case AuthorizeLeg(order, _, _) => NoncesAfterCommit(w, w1, Commit(order.maker, order.nonce, None));
    case RefundLeg(cid, _) =>
      assert w1.legs.Keys == w.legs.Keys;
    case _ =>
  }

  // -------- the log --------

  lemma BackedPersists(w: World, w1: World, now: U64, c: Call, e: Event)
    requires Sane(w) && Happened(w, w1, now, c) && Backed(w, e)
    ensures Backed(w1, e)
  {}

  lemma LoggedAfterBegin(m: Mid, w1: World, now: U64, c: Call)
    requires Sane(m.w) && Linked(m.w) && Logged(m) && Happened(m.w, w1, now, c)
    ensures Logged(Mid(w1, m.open + Finale(c)))
  {
    var m1 := Mid(w1, m.open + Finale(c));
    forall i | 0 <= i < |w1.log| ensures Backed(w1, w1.log[i]) {
      if i < |m.w.log| {
        assert w1.log[i] == m.w.log[i];
        BackedPersists(m.w, w1, now, c, m.w.log[i]);
      }
    }
    forall i | 0 <= i < |m1.open| ensures Backed(w1, m1.open[i]) && !m1.open[i].LogNewSwap? {
      if i < |m.open| {
        BackedPersists(m.w, w1, now, c, m.open[i]);
      }
    }
    forall cid | cid in w1.swaps ensures Recorded(w1.log, m1.open, cid, w1.swaps[cid]) {
      RecordedAfterBegin(m, w1, now, c, cid);
    }
  }

  lemma RecordedAfterBegin(m: Mid, w1: World, now: U64, c: Call, cid: Word)
    requires Sane(m.w) && Logged(m) && Happened(m.w, w1, now, c) && cid in w1.swaps
    ensures Recorded(w1.log, m.open + Finale(c), cid, w1.swaps[cid])
  {
    var all, all1 := m.w.log + m.open, w1.log + (m.open + Finale(c));
    assert forall e :: e in all ==> e in all1;
    if cid in m.w.swaps {
      var s, s1 := m.w.swaps[cid], w1.swaps[cid];
      assert Recorded(m.w.log, m.open, cid, s);
      assert Creation(cid, s) == Creation(cid, s1);
      if s1.withdrawn {
        if s.withdrawn {
          var p :| LogRedeem(cid, p) in all;
          assert LogRedeem(cid, p) in all1;
        } else {
          assert c.Redeem? && LogRedeem(cid, c.preimage) in Finale(c);
          assert LogRedeem(cid, c.preimage) in all1;
        }
      }
      if s1.refunded && !s.refunded {
        assert c.Refund? ==> LogRefund(cid) in Finale(c);
        assert c.RefundLeg? ==> LogRefund(cid) in w1.log;
      }
    } else {
      assert w1.log[|m.w.log|] == Creation(cid, w1.swaps[cid]);
    }
  }

  lemma LoggedAfterEmit(m: Mid)
    requires Logged(m) && m.open != []
    ensures var last := m.open[|m.open| - 1];
      Logged(Mid(m.w.(log := m.w.log + [last]), m.open[..|m.open| - 1]))
  {
    var last := m.open[|m.open| - 1];
    var m1 := Mid(m.w.(log := m.w.log + [last]), m.open[..|m.open| - 1]);
    assert forall e :: e in m.w.log + m.open ==> e in m1.w.log + m1.open by {
      assert m.open == m1.open + [last];
    }
    forall i | 0 <= i < |m1.w.log| ensures Backed(m1.w, m1.w.log[i]) {
      assert Backed(m.w, m1.w.log[i]);
    }
    forall i | 0 <= i < |m1.open| ensures Backed(m1.w, m1.open[i]) {
      assert Backed(m.w, m.open[i]);
    }
    forall cid | cid in m1.w.swaps ensures Recorded(m1.w.log, m1.open, cid, m1.w.swaps[cid]) {
      assert Recorded(m.w.log, m.open, cid, m.w.swaps[cid]);
    }
  }

  lemma WellFormedGrows(log: seq<Event>, e: Event)
    requires WellFormedLog(log)
    requires e.LogNewSwap? ==> forall i :: 0 <= i < |log| && log[i].LogNewSwap? ==> log[i].contractId != e.contractId
    requires !e.LogNewSwap? ==> Announced(log, |log|, e)
    ensures WellFormedLog(log + [e])
  {
    var log1 := log + [e];
    forall i | 0 <= i < |log1| && !log1[i].LogNewSwap? ensures Announced(log1, i, log1[i]) {
      assert Announced(log, i, log1[i]);
      var j :| 0 <= j < i && log[j].LogNewSwap? && log[j].contractId == log1[i].contractId
               && (log1[i].LogRedeem? ==> log[j].hashlock == SHA256(log1[i].preimage));
      assert log1[j] == log[j];
    }
  }

  lemma BackedWasAnnounced(m: Mid, e: Event)
    requires Logged(m) && Backed(m.w, e)
    ensures Announced(m.w.log, |m.w.log|, e)
  {
    var s := m.w.swaps[e.contractId];
    assert Recorded(m.w.log, m.open, e.contractId, s);
    assert Creation(e.contractId, s) in m.w.log;
  }

  lemma WellFormedAfterBegin(m: Mid, w1: World, now: U64, c: Call)
    requires Sane(m.w) && Logged(m) && WellFormedLog(m.w.log) && Happened(m.w, w1, now, c)
    ensures WellFormedLog(w1.log)
  {
    if c.Lock? || c.SettleLeg? || c.RefundLeg? {
      var e := w1.log[|m.w.log|];
      if c.RefundLeg? {
        assert Recorded(m.w.log, m.open, e.contractId, m.w.swaps[e.contractId]);
        assert Creation(e.contractId, m.w.swaps[e.contractId]) in m.w.log;
      } else {
        assert forall i :: 0 <= i < |m.w.log| ==> Backed(m.w, m.w.log[i]);
      }
      WellFormedGrows(m.w.log, e);
    }
  }

  // -------- every step, every call, every history --------

  lemma StepKeepsInv(m: Mid, now: U64, s: Step)
    requires Inv(m) && Apply(m, now, s).Some?
    ensures Inv(Apply(m, now, s).value)
  {
    if s.Do? {
      var w, c := m.w, s.call;
      BeginHappens(w, now, c);
      var w1 := Begin(w, now, c).value;
      InvAfterBegin(m, w1, now, c);
    } else {
      LoggedAfterEmit(m);
      var last := m.open[|m.open| - 1];
      BackedWasAnnounced(m, last);
      WellFormedGrows(m.w.log, last);
      OnlyLogMoves(m.w, m.w.(log := m.w.log + [last]));
    }
  }

  lemma OnlyLogMoves(w: World, w1: World)
    requires Sane(w) && ContractsApproveNobody(w) && Solvent(w) && Linked(w) && PaidOnce(w) && NoncesOnce(w)
    requires w1 == w.(log := w1.log)
    ensures Sane(w1) && ContractsApproveNobody(w1) && Solvent(w1) && Linked(w1) && PaidOnce(w1) && NoncesOnce(w1)
  {
    forall k: Address ensures Surplus(w1, k) >= 0 {
      assert Surplus(w1, k) == Surplus(w, k);
    }
    forall cid: Word ensures PaidFor(w1, cid) {
      assert PaidFor(w, cid);
    }
  }

  lemma InvAfterBegin(m: Mid, w1: World, now: U64, c: Call)
    requires Inv(m) && Happened(m.w, w1, now, c)
    ensures Inv(Mid(w1, m.open + Finale(c)))
  {
    SaneAfter(m.w, w1, now, c);
    GuardedAfter(m.w, w1, now, c);
    SolventAfter(m.w, w1, now, c);
    LinkedAfter(m.w, w1, now, c);
    PaidOnceAfter(m.w, w1, now, c);
    NoncesAfter(m.w, w1, now, c);
    LoggedAfterBegin(m, w1, now, c);
    WellFormedAfterBegin(m, w1, now, c);
  }

  /** In particular it holds inside a transaction, wherever a payee's code may run. */
  lemma {:induction false} StepsKeepInv(m: Mid, now: U64, ss: seq<Step>)
    requires Inv(m) && ApplyAll(m, now, ss).Some?
    ensures Inv(ApplyAll(m, now, ss).value)
    decreases |ss|
  {
    if ss != [] {
      StepKeepsInv(m, now, ss[0]);
      StepsKeepInv(Apply(m, now, ss[0]).value, now, ss[1..]);
    }
  }

  lemma ExecKeepsInv(w: World, now: U64, c: Call)
    requires WorldInv(w)
    ensures WorldInv(After(w, now, c))
  {
    if Exec(w, now, c).Ok? {
      StepsRun(w, now, c, []);
      StepsKeepInv(Mid(w, []), now, Steps(w, now, c));
    }
  }

  lemma GenesisInv(w: World)
    requires Genesis(w)
    ensures WorldInv(w)
  {
    forall k: Address ensures Surplus(w, k) >= 0 {
      assert Claims(w.swaps, k) == map[];
    }
  }

  lemma {:induction false} HistoryKeepsInv(w: World, txs: seq<Transaction>)
    requires Genesis(w)
    ensures WorldInv(History(w, txs))
    decreases |txs|
  {
    if txs == [] {
      GenesisInv(w);
    } else {
      var n := |txs| - 1;
      HistoryKeepsInv(w, txs[..n]);
      ExecKeepsInv(History(w, txs[..n]), txs[n].time, txs[n].call);
    }
  }
}
