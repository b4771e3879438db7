/** Steps during which nobody else does anything. */
module QuietSteps {
  import opened Primitives
  import opened Ledger
  import opened Observer
  import opened StateMachine
  import opened Executor
  import opened SwapSystem
  import opened WalletRuns
  import opened WalletTheorems
  import opened MakerSafety
  import opened TakerSafety
  import opened Completion

  function QuietLook(): Happening { Observe([], [], [], 0, NoFault) }

  function QuietTurn(): Turn { Turn(QuietLook(), [], QuietLook(), [], true, true) }

  ghost function QuietView(s: Sys): View { ViewOf(s.now, s.cp, s.cp, s.own, NoFault) }

  /** The system after a quiet refresh. */
  ghost function Looked(s: Sys): Sys
    requires s.wallet.ctx.hashlock.Some?
  {
    s.(wallet := Refreshed(s.wallet, QuietView(s)), pc := Idle)
  }

  lemma QuietRefresh(s: Sys)
    requires s.wallet.ctx.hashlock.Some?
    ensures RefreshedSys(s, QuietLook()) == Looked(s) && FullyAnswered(s, QuietLook())
    ensures Instants(s, QuietLook()) == (s, s, s) && LookedAt(s, QuietLook()) == Looked(s).wallet
  {}

  lemma QuietIsClueless(hash: Word)
    ensures CluelessTurn(QuietTurn(), hash) && Proper(QuietTurn())
  {}

  lemma PollAgain(o: ObserverState, blocks: seq<seq<Event>>)
    ensures Polled(Polled(o, blocks), blocks) == Polled(o, blocks)
  {}

  /** Looking again at the same chains changes nothing. */
  lemma LookAgain(s: Sys)
    requires s.wallet.ctx.hashlock.Some?
    ensures Looked(Looked(s)) == Looked(s)
  {
    PollAgain(s.wallet.cp, s.cp.blocks);
    PollAgain(s.wallet.own, s.own.blocks);
  }

  lemma QuietObserved(s: Sys)
    requires s.wallet.ctx.hashlock.Some? && !s.pc.Ready?
    ensures ObservedSys(s, QuietLook()) == Decided(Looked(s), s.pc, 0)
  {
    QuietRefresh(s);
  }

  lemma DecidingKeepsChains(s: Sys, was: Pc, entropy: Word)
    ensures var e := Decided(s, was, entropy);
      e.own == s.own && e.cp == s.cp && e.now == s.now && e.cfg == s.cfg && e.done == s.done && e.shown == s.shown
  {}

  /** A quiet look leaves both chains and the clock alone. */
  lemma QuietKeepsChains(s: Sys)
    requires s.wallet.ctx.hashlock.Some?
    ensures var e := ObservedSys(s, QuietLook());
      e.own == s.own && e.cp == s.cp && e.now == s.now && e.cfg == s.cfg && e.done == s.done && e.shown == s.shown
  {
    QuietRefresh(s);
    if !s.pc.Ready? {
      QuietObserved(s);
      DecidingKeepsChains(Looked(s), s.pc, 0);
    }
  }

  /** An agreed lock in time is deep enough for a wallet that asks for one block. */
  lemma QuietBuried(s: Sys, deal: SwapContext, cid: Word)
    requires Honest(s, deal) && s.wallet.minConfirmations <= 1 && Hidden(s, deal.hashlock.value)
    requires AgreedFirst(s.cp.world, deal, cid) && s.now < s.cp.world.swaps[cid].timelock
    ensures Buried(s, QuietLook(), cid)
  {
    QuietRefresh(s);
    StaysOpen(s.cp, s.now, cid, deal.hashlock.value);
    OpenIsAnnounced(s.cp, cid);
  }

  /** Everything a quiet step reads is answered, and its broadcast lands on the chains it started with. */
  lemma QuietStep(s: Sys, deal: SwapContext)
    requires Honest(s, deal)
    ensures GoesThrough(s, QuietTurn())
    ensures var b := Brink(s, QuietTurn());
      b.own == s.own && b.cp == s.cp && b.now == s.now && b.cfg == s.cfg
  {
    var s1 := ObservedSys(s, QuietLook());
    ObserveIsHonest(s, QuietLook(), deal);
    QuietReadsAll(s, deal);
    QuietKeepsChains(s);
    QuietSecondHalf(s1, deal);
  }

  lemma QuietReadsAll(s: Sys, deal: SwapContext)
    requires Honest(s, deal)
    ensures GoesThrough(s, QuietTurn())
  {
    ObserveIsHonest(s, QuietLook(), deal);
    QuietRefresh(s);
    QuietRefresh(ObservedSys(s, QuietLook()));
  }

  lemma QuietSecondHalf(s1: Sys, deal: SwapContext)
    requires Honest(s1, deal)
    ensures var s2 := Rechecked(s1, QuietTurn());
      s2.own == s1.own && s2.cp == s1.cp && s2.now == s1.now && s2.cfg == s1.cfg
  {
    QuietKeepsChains(s1);
  }

  /** Two quiet looks read one secret. */
  lemma QuietRereads(s: Sys, deal: SwapContext)
    requires Honest(s, deal) && s.pc.Idle? && deal.role.Maker? && s.wallet.state.WaitingForSecret?
    requires Hears(s, QuietLook(), deal.hashlock.value)
    ensures Rereads(s, QuietTurn())
  {
    QuietStep(s, deal);
    HeardFirst(s, QuietTurn(), deal);
    HeardIsDecided(s, QuietLook(), deal);
    QuietRefresh(s);
    var s1 := ObservedSys(s, QuietLook());
    QuietObserved(s);
    QuietRefresh(s1);
    LookAgain(s);
  }

  // -------- runs, one happening after the other --------

  /** A run from `s` to `e` in which the wallet is told the truth. */
  ghost predicate Reaches(s: Sys, hs: seq<Happening>, e: Sys) { Run(s, hs) == e && TruthfulRun(s, hs) }

  lemma ReachesOn(s: Sys, hs: seq<Happening>, e: Sys, h: Happening)
    requires Reaches(s, hs, e) && Truthful(e, h)
    ensures Reaches(s, hs + [h], Next(e, h))
  {
    var hs1 := hs + [h];
    assert hs1[..|hs1| - 1] == hs && hs1[|hs1| - 1] == h;
  }

  /** And in which nobody guesses a hidden secret. */
  ghost predicate Leads(s: Sys, hs: seq<Happening>, e: Sys, hash: Word) {
    Reaches(s, hs, e) && SecretiveRun(s, hs, hash)
  }

  ghost predicate SecretiveRun(s: Sys, hs: seq<Happening>, hash: Word)
    decreases |hs|
  {
    hs != [] ==>
      var n := |hs| - 1;
      SecretiveRun(s, hs[..n], hash) && Secretive(Run(s, hs[..n]), hs[n], hash)
  }

  lemma LeadsNowhere(s: Sys, hash: Word)
    ensures Leads(s, [], s, hash)
  {}

  lemma LeadsOn(s: Sys, hs: seq<Happening>, e: Sys, h: Happening, hash: Word)
    requires Leads(s, hs, e, hash) && Truthful(e, h) && Secretive(e, h, hash)
    ensures Leads(s, hs + [h], Next(e, h), hash)
  {
    ReachesOn(s, hs, e, h);
    var hs1 := hs + [h];
    assert hs1[..|hs1| - 1] == hs && hs1[|hs1| - 1] == h;
  }

  lemma QuietLookIsSecretive(s: Sys, hash: Word)
    ensures Secretive(s, QuietLook(), hash) && Truthful(s, QuietLook())
  {}

  /** The run of a quiet step up to its broadcast. */
  lemma LeadsToBrink(s: Sys, hs: seq<Happening>, e: Sys, deal: SwapContext)
    requires deal.hashlock.Some? && Leads(s, hs, e, deal.hashlock.value)
    requires Honest(e, deal) && ObservedSys(e, QuietLook()).pc.Planned? && Brink(e, QuietTurn()).pc.Ready?
    ensures Leads(s, hs + [QuietLook()] + [QuietLook()], Brink(e, QuietTurn()), deal.hashlock.value)
  {
    var hash := deal.hashlock.value;
    var s1 := ObservedSys(e, QuietLook());
    QuietLookIsSecretive(e, hash);
    LeadsOn(s, hs, e, QuietLook(), hash);
    QuietLookIsSecretive(s1, hash);
    LeadsOn(s, hs + [QuietLook()], s1, QuietLook(), hash);
    BrinkIsSecondLook(e);
  }

  /** And through the broadcast, if the transaction takes effect. */
  lemma LeadsThroughStep(s: Sys, hs: seq<Happening>, e: Sys, deal: SwapContext)
    requires deal.hashlock.Some? && Leads(s, hs, e, deal.hashlock.value)
    requires Honest(e, deal) && ObservedSys(e, QuietLook()).pc.Planned? && Brink(e, QuietTurn()).pc.Ready?
    requires Succeeds(Brink(e, QuietTurn()), true)
    ensures Leads(s, hs + [QuietLook()] + [QuietLook()] + [Happening.Send(true, true)], WholeStep(e, QuietTurn()),
                  deal.hashlock.value)
  {
    LeadsToBrink(s, hs, e, deal);
    LeadsOn(s, hs + [QuietLook()] + [QuietLook()], Brink(e, QuietTurn()), Happening.Send(true, true), deal.hashlock.value);
    BrinkIsHonest(e, QuietTurn(), deal);
  }

  lemma BrinkIsSecondLook(e: Sys)
    requires ObservedSys(e, QuietLook()).pc.Planned?
    ensures Brink(e, QuietTurn()) == ObservedSys(ObservedSys(e, QuietLook()), QuietLook())
  {}
}
