/** The order book: verified, deduplicated submissions and the matches shown to a maker. */
module Book {
  import opened Primitives
  import opened Orders
  import opened Matching

  datatype SubmitError = NotVerified(why: OrderError) | Duplicate

  datatype MatchPair = MatchPair(takerHash: Word, makerHash: Word)

  /** `hash` is the digest of the order, which its maker signed, and which had not expired when it came in. */
  ghost predicate Admitted(o: Order, hash: Word) {
    hash == Digest(o.terms) && exists signature: seq<Byte>, now: U64 :: SignedBy(o.terms, signature, now)
  }

  /** The reason the check gives, and it is a true one. */
  ghost predicate Refusal(o: Terms, signature: seq<Byte>, now: U64, why: OrderError) {
    VerifyOffChain(o, signature, now) == Err(why) && RefusedFor(o, signature, now, why)
  }

  lemma UnsignedIsRefused(o: Terms, signature: seq<Byte>, now: U64)
    ensures var v := VerifyOffChain(o, signature, now);
      if SignedBy(o, signature, now) then v == Ok(Digest(o)) else v.Err? && Refusal(o, signature, now, v.error)
  {
    AcceptedOffChain(o, signature, now);
    RefusalsAreTrue(o, signature, now);
  }

  ghost predicate Distinct(hashes: seq<Word>) {
    forall i, j :: 0 <= i < j < |hashes| ==> hashes[i] != hashes[j]
  }

  // -------- what a maker is shown --------

  function PairsWith(hashes: seq<Word>, i: nat, ranking: seq<nat>): seq<MatchPair>
    requires i < |hashes| && forall k :: 0 <= k < |ranking| ==> ranking[k] < |hashes|
  {
    seq(|ranking|, k requires 0 <= k < |ranking| => MatchPair(hashes[i], hashes[ranking[k]]))
  }

  /** What order `i` contributes: its partners, best first, if it is the maker's. */
  function PairsOf(orders: seq<Order>, hashes: seq<Word>, maker: Address, now: U64, i: nat): seq<MatchPair>
    requires |hashes| == |orders| && i < |orders|
  {
    if orders[i].terms.maker == maker then PairsWith(hashes, i, Ranking(orders, i, now)) else []
  }

  function PairsFor(orders: seq<Order>, hashes: seq<Word>, maker: Address, now: U64, upTo: nat): seq<MatchPair>
    requires |hashes| == |orders| && upTo <= |orders|
    decreases upTo
  {
    if upTo == 0 then []
    else PairsFor(orders, hashes, maker, now, upTo - 1) + PairsOf(orders, hashes, maker, now, upTo - 1)
  }

  lemma PairsGrow(orders: seq<Order>, hashes: seq<Word>, maker: Address, now: U64, i: nat)
    requires |hashes| == |orders| && i < |orders|
    ensures PairsFor(orders, hashes, maker, now, i + 1)
      == PairsFor(orders, hashes, maker, now, i) + PairsOf(orders, hashes, maker, now, i)
  {}

  class OrderBook {
    var orders: seq<Order>
    var hashes: seq<Word>
    var seen: set<Word>

    constructor ()
      ensures Valid() && orders == []
    {
      orders, hashes, seen := [], [], {};
    }

    /** Hashes are parallel to the orders, all different, and exactly the ones seen. */
    ghost predicate Valid()
      reads this
    {
      && |hashes| == |orders|
      && Distinct(hashes)
      && (forall h :: h in seen <==> h in hashes)
      && forall i {:trigger Admitted(orders[i], hashes[i])} :: 0 <= i < |orders| ==> Admitted(orders[i], hashes[i])
    }

    method Submit(order: Order, signature: seq<Byte>, now: U64) returns (r: Result<Word, SubmitError>)
      requires Valid()
      modifies this
      ensures Valid()
      ensures r.Ok? <==> SignedBy(order.terms, signature, now) && Digest(order.terms) !in old(seen)
      ensures r == Err(Duplicate) <==> SignedBy(order.terms, signature, now) && Digest(order.terms) in old(seen)
      ensures r.Ok? ==> r.value == Digest(order.terms)
      ensures r.Err? && r.error.NotVerified? ==> Refusal(order.terms, signature, now, r.error.why)
      ensures r.Err? ==> orders == old(orders) && hashes == old(hashes) && seen == old(seen)
      ensures r.Ok? ==> orders == old(orders) + [order] && hashes == old(hashes) + [r.value] && seen == old(seen) + {r.value}
    {
      var checked := VerifyOffChain(order.terms, signature, now);
      UnsignedIsRefused(order.terms, signature, now);
      if checked.Err? { return Err(NotVerified(checked.error)); }
      var hash := checked.value;
      if hash in seen { return Err(Duplicate); }
      assert Admitted(order, hash);
      seen := seen + {hash};
      orders := orders + [order];
      hashes := hashes + [hash];
      return Ok(hash);
    }

    method MatchesFor(maker: Address, now: U64) returns (out: seq<MatchPair>)
      requires Valid()
      ensures out == PairsFor(orders, hashes, maker, now, |orders|)
    {
      out := [];
      for i := 0 to |orders|
        invariant out == PairsFor(orders, hashes, maker, now, i)
      {
        PairsGrow(orders, hashes, maker, now, i);
        var pairs := PairsOfOrder(maker, now, i);
        out := out + pairs;
      }
    }

    method PairsOfOrder(maker: Address, now: U64, i: nat) returns (out: seq<MatchPair>)
      requires Valid() && i < |orders|
      ensures out == PairsOf(orders, hashes, maker, now, i)
    {
      if orders[i].terms.maker != maker { return []; }
      out := BestFirst(i, Ranking(orders, i, now));
    }

    /** The inner loop over one taker's sorted candidates. */
    method BestFirst(i: nat, ranking: seq<nat>) returns (out: seq<MatchPair>)
      requires i < |hashes| && forall k :: 0 <= k < |ranking| ==> ranking[k] < |hashes|
      ensures out == PairsWith(hashes, i, ranking)
    {
      out := [];
      for k := 0 to |ranking|
        invariant out == PairsWith(hashes, i, ranking)[..k]
      {
        out := out + [MatchPair(hashes[i], hashes[ranking[k]])];
      }
    }

    /** No terms stand in the book twice, whatever the arrival times claimed. */
    lemma NoReplay(i: nat, j: nat)
      requires Valid() && i < j < |orders|
      ensures orders[i].terms != orders[j].terms
    {
      assert Admitted(orders[i], hashes[i]) && Admitted(orders[j], hashes[j]);
    }
  }

  /** A book's orders with their digests, all different. */
  ghost predicate Sound(orders: seq<Order>, hashes: seq<Word>) {
    |hashes| == |orders| && Distinct(hashes)
  }

  /** `p` joins order `i`, one of the maker's, with a partner of it. */
  ghost predicate Joins(orders: seq<Order>, hashes: seq<Word>, maker: Address, now: U64, i: nat, p: MatchPair)
    requires |hashes| == |orders|
  {
    i < |orders| && orders[i].terms.maker == maker
    && exists j: nat :: IsPartner(orders[i], orders, i, now, j) && p == MatchPair(hashes[i], hashes[j])
  }

  /** Order `i` contributes exactly the pairs with its partners. */
  lemma PairsOfOne(orders: seq<Order>, hashes: seq<Word>, maker: Address, now: U64, i: nat, p: MatchPair)
    requires |hashes| == |orders| && i < |orders|
    ensures p in PairsOf(orders, hashes, maker, now, i) <==> Joins(orders, hashes, maker, now, i, p)
  {
    var ranking, pairs := Ranking(orders, i, now), PairsOf(orders, hashes, maker, now, i);
    RankingIsRanked(orders, i, now);
    if p in pairs {
      var k :| 0 <= k < |pairs| && pairs[k] == p;
      assert ranking[k] in ranking;
    }
    if orders[i].terms.maker == maker {
      if j: nat :| IsPartner(orders[i], orders, i, now, j) && p == MatchPair(hashes[i], hashes[j]) {
        assert j in ranking;
        var k :| 0 <= k < |ranking| && ranking[k] == j;
        assert pairs[k] == p;
      }
    }
  }

  ghost predicate JoinsSome(orders: seq<Order>, hashes: seq<Word>, maker: Address, now: U64, upTo: nat, p: MatchPair)
    requires |hashes| == |orders|
  {
    exists i: nat :: i < upTo && Joins(orders, hashes, maker, now, i, p)
  }

  lemma JoinsOneMore(orders: seq<Order>, hashes: seq<Word>, maker: Address, now: U64, i: nat, p: MatchPair)
    requires |hashes| == |orders|
    ensures JoinsSome(orders, hashes, maker, now, i + 1, p) <==>
      JoinsSome(orders, hashes, maker, now, i, p) || Joins(orders, hashes, maker, now, i, p)
  {}

  /** A pair is shown exactly when it joins one of the maker's orders with a partner of it. */
  ghost predicate ShownExactly(orders: seq<Order>, hashes: seq<Word>, maker: Address, now: U64, upTo: nat, p: MatchPair)
    requires |hashes| == |orders| && upTo <= |orders|
  {
    p in PairsFor(orders, hashes, maker, now, upTo) <==> JoinsSome(orders, hashes, maker, now, upTo, p)
  }

  lemma OneMoreOrder(orders: seq<Order>, hashes: seq<Word>, maker: Address, now: U64, i: nat, p: MatchPair)
    requires |hashes| == |orders| && i < |orders| && ShownExactly(orders, hashes, maker, now, i, p)
    ensures ShownExactly(orders, hashes, maker, now, i + 1, p)
  {
    var before, added := PairsFor(orders, hashes, maker, now, i), PairsOf(orders, hashes, maker, now, i);
    PairsGrow(orders, hashes, maker, now, i);
    assert p in before + added <==> p in before || p in added;
    PairsOfOne(orders, hashes, maker, now, i, p);
    JoinsOneMore(orders, hashes, maker, now, i, p);
  }

  lemma PairsAreThePartners(orders: seq<Order>, hashes: seq<Word>, maker: Address, now: U64, upTo: nat, p: MatchPair)
    requires |hashes| == |orders| && upTo <= |orders|
    ensures ShownExactly(orders, hashes, maker, now, upTo, p)
  {
    for i := 0 to upTo
      invariant ShownExactly(orders, hashes, maker, now, i, p)
    {
      OneMoreOrder(orders, hashes, maker, now, i, p);
    }
  }

  /** One order's pairs among those shown. */
  function ShownFor(pairs: seq<MatchPair>, taker: Word): seq<MatchPair> {
    if pairs == [] then []
    else (if pairs[0].takerHash == taker then [pairs[0]] else []) + ShownFor(pairs[1..], taker)
  }

  lemma {:induction false} ShownForSplits(a: seq<MatchPair>, b: seq<MatchPair>, taker: Word)
    ensures ShownFor(a + b, taker) == ShownFor(a, taker) + ShownFor(b, taker)
  {
    if a == [] {
      assert a + b == b;
    } else {
      ShownForSplits(a[1..], b, taker);
      assert (a + b)[1..] == a[1..] + b;
      var head := if a[0].takerHash == taker then [a[0]] else [];
      assert ShownFor(a + b, taker) == head + (ShownFor(a[1..], taker) + ShownFor(b, taker));
    }
  }

  lemma {:induction false} ShownForOne(pairs: seq<MatchPair>, taker: Word)
    requires forall k, l :: 0 <= k < |pairs| && 0 <= l < |pairs| ==> pairs[k].takerHash == pairs[l].takerHash
    ensures ShownFor(pairs, taker) == if pairs != [] && pairs[0].takerHash == taker then pairs else []
  {
    if pairs != [] {
      ShownForOne(pairs[1..], taker);
    }
  }

  /** For each of the maker's orders the pairs shown are its whole ranking, in order, under its own hash. */
  lemma {:induction false} ShownIsTheRanking(orders: seq<Order>, hashes: seq<Word>, maker: Address, now: U64, upTo: nat, i: nat)
    requires Sound(orders, hashes) && upTo <= |orders| && i < |orders|
    ensures ShownFor(PairsFor(orders, hashes, maker, now, upTo), hashes[i]) ==
      if i < upTo && orders[i].terms.maker == maker then PairsWith(hashes, i, Ranking(orders, i, now)) else []
    decreases upTo
  {
    if upTo > 0 {
      var last := upTo - 1;
      ShownIsTheRanking(orders, hashes, maker, now, last, i);
      PairsGrow(orders, hashes, maker, now, last);
      ShownForSplits(PairsFor(orders, hashes, maker, now, last), PairsOf(orders, hashes, maker, now, last), hashes[i]);
      ShownFromOne(orders, hashes, maker, now, last, i);
    }
  }

  lemma ShownFromOne(orders: seq<Order>, hashes: seq<Word>, maker: Address, now: U64, last: nat, i: nat)
    requires Sound(orders, hashes) && last < |orders| && i < |orders|
    ensures ShownFor(PairsOf(orders, hashes, maker, now, last), hashes[i]) ==
      if i == last && orders[i].terms.maker == maker then PairsWith(hashes, i, Ranking(orders, i, now)) else []
  {
    ShownForOne(PairsOf(orders, hashes, maker, now, last), hashes[i]);
    assert hashes[last] == hashes[i] <==> last == i;
  }

  /** What `find_match` would make is what its taker is shown first. */
  lemma MatchIsShownFirst(orders: seq<Order>, hashes: seq<Word>, now: U64, i: nat, j: nat)
    requires Sound(orders, hashes) && i < |orders| && IsBest(orders[i], orders, i, now, j)
    ensures var shown := ShownFor(PairsFor(orders, hashes, orders[i].terms.maker, now, |orders|), hashes[i]);
      shown != [] && shown[0] == MatchPair(hashes[i], hashes[j])
  {
    BestIsHead(orders, i, now, j);
    ShownIsTheRanking(orders, hashes, orders[i].terms.maker, now, |orders|, i);
  }
}
