/** Price-time matching of mirrored orders. */
module Matching {
  import opened Primitives
  import opened Orders

  predicate IsExpired(o: Order, now: U64) { o.terms.validUntil < now }

  predicate Mirrors(a: Order, b: Order) {
    && a.terms.sellToken == b.terms.buyToken && a.terms.sellChainId == b.terms.buyChainId
    && a.terms.buyToken == b.terms.sellToken && a.terms.buyChainId == b.terms.sellChainId
  }

  predicate Crosses(a: Order, b: Order) {
    a.terms.sellAmount >= b.terms.buyAmount && b.terms.sellAmount >= a.terms.buyAmount
  }

  predicate Compatible(a: Order, b: Order, now: U64) {
    !IsExpired(a, now) && !IsExpired(b, now) && Mirrors(a, b) && Crosses(a, b)
  }

  /** `want` can be filled by `offer`: what it asks for is what is offered, in that token, on that chain, and enough. */
  predicate Fills(offer: Terms, want: Terms) {
    offer.sellToken == want.buyToken && offer.sellChainId == want.buyChainId && offer.sellAmount >= want.buyAmount
  }

  /** Neither order has expired, and each fills the other. */
  predicate Trades(a: Terms, b: Terms, now: U64) {
    a.validUntil >= now && b.validUntil >= now && Fills(a, b) && Fills(b, a)
  }

  /** Two orders are matched exactly when they trade, and then either one may be called the taker. */
  lemma CompatibleIsMutual(a: Order, b: Order, now: U64)
    ensures Compatible(a, b, now) <==> Trades(a.terms, b.terms, now)
    ensures Compatible(a, b, now) <==> Compatible(b, a, now)
  {}

  // -------- the ordering --------

  datatype Ordering = Less | Equal | Greater {
    function Flip(): Ordering {
      match this
      case Less => Greater
      case Equal => Equal
      case Greater => Less
    }

    function Then(next: Ordering): Ordering {
      if Equal? then next else this
    }
  }

  function Compare(x: nat, y: nat): Ordering {
    if x < y then Less else if x == y then Equal else Greater
  }

  /** Larger sell amount first, then older, then lower nonce. */
  function CmpMakers(a: Order, b: Order): Ordering {
    Compare(b.terms.sellAmount, a.terms.sellAmount)
      .Then(Compare(a.createdAt, b.createdAt))
      .Then(Compare(a.terms.nonce, b.terms.nonce))
  }

  /** A total preorder: every two orders compare, consistently, and ties are ties for everyone. */
  lemma CmpMakersIsTotalPreorder(a: Order, b: Order, c: Order)
    ensures CmpMakers(a, a) == Equal
    ensures CmpMakers(b, a) == CmpMakers(a, b).Flip()
    ensures CmpMakers(a, b) != Greater && CmpMakers(b, c) != Greater ==>
      CmpMakers(a, c) == CmpMakers(a, b).Then(CmpMakers(b, c))
  {}

  /** Which maker comes first: the one selling more; then the one that came earlier; then the lower nonce. */
  predicate Outranks(a: Order, b: Order) {
    || a.terms.sellAmount > b.terms.sellAmount
    || (a.terms.sellAmount == b.terms.sellAmount && a.createdAt < b.createdAt)
    || (a.terms.sellAmount == b.terms.sellAmount && a.createdAt == b.createdAt && a.terms.nonce < b.terms.nonce)
  }

  lemma LargerThenOlderThenLowerNonce(a: Order, b: Order)
    ensures CmpMakers(a, b) == Less <==> Outranks(a, b)
    ensures CmpMakers(a, b) == Greater <==> Outranks(b, a)
    ensures CmpMakers(a, b) == Equal <==>
      a.terms.sellAmount == b.terms.sellAmount && a.createdAt == b.createdAt && a.terms.nonce == b.terms.nonce
  {}

  predicate BetterForTaker(candidate: Order, current: Order) { CmpMakers(candidate, current) == Less }

  // -------- the best partner --------

  predicate IsPartner(taker: Order, makers: seq<Order>, skip: int, now: U64, j: int) {
    0 <= j < |makers| && j != skip && Trades(taker.terms, makers[j].terms, now)
  }

  /** Ties go to the lower index. */
  predicate RanksBefore(makers: seq<Order>, x: int, y: int)
    requires 0 <= x < |makers| && 0 <= y < |makers|
  {
    Outranks(makers[x], makers[y]) || (!Outranks(makers[y], makers[x]) && x < y)
  }

  ghost predicate IsBest(taker: Order, makers: seq<Order>, skip: int, now: U64, k: int) {
    && IsPartner(taker, makers, skip, now, k)
    && forall j :: IsPartner(taker, makers, skip, now, j) && j != k ==> RanksBefore(makers, k, j)
  }

  /** The best of all makers that trade with this taker; index -1 skips nobody. */
  method BestMatchFor(taker: Order, makers: seq<Order>, now: U64) returns (best: Option<nat>)
    ensures best.None? <==> forall j :: !IsPartner(taker, makers, -1, now, j)
    ensures best.Some? ==> IsBest(taker, makers, -1, now, best.value)
  {
    if IsExpired(taker, now) { return None; }
    best := BestAmong(taker, makers, -1, now);
  }

  /** The argmin loop both searches run; `skip` is the taker's own place, if it has one. */
  method BestAmong(taker: Order, makers: seq<Order>, skip: int, now: U64) returns (best: Option<nat>)
    ensures best.None? <==> forall j :: !IsPartner(taker, makers, skip, now, j)
    ensures best.Some? ==> IsBest(taker, makers, skip, now, best.value)
  {
    best := None;
    for i := 0 to |makers|
      invariant best.None? ==> forall j :: 0 <= j < i ==> !IsPartner(taker, makers, skip, now, j)
      invariant best.Some? ==> best.value < i && IsPartner(taker, makers, skip, now, best.value)
      invariant best.Some? ==> forall j :: 0 <= j < i && IsPartner(taker, makers, skip, now, j) && j != best.value ==>
        RanksBefore(makers, best.value, j)
    {
      if i == skip || !Compatible(taker, makers[i], now) {
        continue;
      }
      if best.None? || BetterForTaker(makers[i], makers[best.value]) {
        best := Some(i);
      }
    }
  }

  ghost predicate HasPartner(orders: seq<Order>, now: U64, i: int)
    requires 0 <= i < |orders|
  {
    exists j :: IsPartner(orders[i], orders, i, now, j)
  }

  lemma PartnersArePartnered(orders: seq<Order>, now: U64, i: int, j: int)
    requires 0 <= i < |orders| && IsPartner(orders[i], orders, i, now, j)
    ensures HasPartner(orders, now, j)
  {
    assert IsPartner(orders[j], orders, j, now, i);
  }

  /**
   * The first taker that has any partner, and the best of its partners; as
   * partnership is mutual, that taker stands before its maker. Nothing only if
   * no two orders trade.
   */
  method FindMatch(orders: seq<Order>, now: U64) returns (r: Option<(nat, nat)>)
    ensures r.None? <==> forall i :: 0 <= i < |orders| ==> !HasPartner(orders, now, i)
    ensures r.None? <==> forall i, j :: 0 <= i < |orders| && 0 <= j < |orders| && i != j ==>
      !Trades(orders[i].terms, orders[j].terms, now)
    ensures r.Some? ==>
      var (i, j) := r.value;
      && i < j < |orders| && Trades(orders[i].terms, orders[j].terms, now)
      && (forall k :: 0 <= k < i ==> !HasPartner(orders, now, k))
      && IsBest(orders[i], orders, i, now, j)
  {
    for i := 0 to |orders|
      invariant forall k :: 0 <= k < i ==> !HasPartner(orders, now, k)
    {
      var best := BestAmong(orders[i], orders, i, now);
      if best.Some? {
        assert HasPartner(orders, now, i);
        PartnersArePartnered(orders, now, i, best.value);
        return Some((i, best.value));
      }
    }
    NobodyTrades(orders, now);
    return None;
  }

  lemma NobodyTrades(orders: seq<Order>, now: U64)
    requires forall i :: 0 <= i < |orders| ==> !HasPartner(orders, now, i)
    ensures forall i, j :: 0 <= i < |orders| && 0 <= j < |orders| && i != j ==>
      !Trades(orders[i].terms, orders[j].terms, now)
  {
    forall i, j | 0 <= i < |orders| && 0 <= j < |orders| && i != j ensures !Trades(orders[i].terms, orders[j].terms, now) {
      assert IsPartner(orders[i], orders, i, now, j) ==> HasPartner(orders, now, i);
    }
  }

  // -------- all partners, best first --------

  function Candidates(orders: seq<Order>, i: nat, now: U64, upTo: nat): (c: seq<nat>)
    requires i < |orders| && upTo <= |orders|
    ensures forall j: nat :: j in c <==> j < upTo && IsPartner(orders[i], orders, i, now, j)
    ensures forall x :: 0 <= x < |c| ==> c[x] < upTo
    ensures forall x, y :: 0 <= x < y < |c| ==> c[x] < c[y]
  {
    if upTo == 0 then []
    else
      var c := Candidates(orders, i, now, upTo - 1);
      if upTo - 1 != i && Compatible(orders[i], orders[upTo - 1], now) then c + [upTo - 1] else c
  }

  predicate InRange(orders: seq<Order>, xs: seq<nat>) { forall k :: 0 <= k < |xs| ==> xs[k] < |orders| }

  /** `sort_by` keeps equal elements in their order: each goes in after all that are not greater. */
  function Insert(orders: seq<Order>, x: nat, sorted: seq<nat>): (r: seq<nat>)
    requires x < |orders| && InRange(orders, sorted)
    ensures InRange(orders, r) && |r| == |sorted| + 1
  {
    if sorted == [] then [x]
    else if CmpMakers(orders[sorted[0]], orders[x]) == Greater then [x] + sorted
    else [sorted[0]] + Insert(orders, x, sorted[1..])
  }

  function StableSort(orders: seq<Order>, xs: seq<nat>): (r: seq<nat>)
    requires InRange(orders, xs)
    ensures InRange(orders, r) && |r| == |xs|
  {
    if xs == [] then []
    else Insert(orders, xs[|xs| - 1], StableSort(orders, xs[..|xs| - 1]))
  }

  function Ranking(orders: seq<Order>, i: nat, now: U64): (r: seq<nat>)
    requires i < |orders|
    ensures InRange(orders, r)
  {
    StableSort(orders, Candidates(orders, i, now, |orders|))
  }

  ghost predicate Ranked(orders: seq<Order>, xs: seq<nat>) {
    && InRange(orders, xs)
    && forall a, b :: 0 <= a < b < |xs| ==> RanksBefore(orders, xs[a], xs[b])
  }

  lemma RanksBeforeTransitive(orders: seq<Order>, x: nat, y: nat, z: nat)
    requires x < |orders| && y < |orders| && z < |orders|
    requires RanksBefore(orders, x, y) && RanksBefore(orders, y, z)
    ensures RanksBefore(orders, x, z)
  {}

  lemma {:induction false} InsertAdds(orders: seq<Order>, x: nat, sorted: seq<nat>, j: nat)
    requires x < |orders| && InRange(orders, sorted)
    ensures j in Insert(orders, x, sorted) <==> j == x || j in sorted
  {
    if sorted != [] && CmpMakers(orders[sorted[0]], orders[x]) != Greater {
      InsertAdds(orders, x, sorted[1..], j);
      assert sorted == [sorted[0]] + sorted[1..];
    }
  }

  lemma {:induction false} InsertRanks(orders: seq<Order>, x: nat, sorted: seq<nat>)
    requires x < |orders| && Ranked(orders, sorted)
    requires forall k :: 0 <= k < |sorted| ==> sorted[k] < x
    ensures Ranked(orders, Insert(orders, x, sorted))
  {
    if sorted != [] {
      var rest := sorted[1..];
      if CmpMakers(orders[sorted[0]], orders[x]) == Greater {
        forall b | 0 <= b < |sorted| ensures RanksBefore(orders, x, sorted[b]) {
          if b > 0 {
            RanksBeforeTransitive(orders, x, sorted[0], sorted[b]);
          }
        }
      } else {
        InsertRanks(orders, x, rest);
        var r := Insert(orders, x, rest);
        forall b | 0 <= b < |r| ensures RanksBefore(orders, sorted[0], r[b]) {
          assert r[b] in r;
          InsertAdds(orders, x, rest, r[b]);
          if r[b] != x {
            var k :| 0 <= k < |rest| && rest[k] == r[b];
            assert sorted[k + 1] == r[b];
          }
        }
      }
    }
  }

  lemma {:induction false} StableSortRanks(orders: seq<Order>, xs: seq<nat>)
    requires InRange(orders, xs) && forall a, b :: 0 <= a < b < |xs| ==> xs[a] < xs[b]
    ensures Ranked(orders, StableSort(orders, xs))
    ensures forall j: nat :: j in StableSort(orders, xs) <==> j in xs
  {
    if xs != [] {
      var n := |xs| - 1;
      StableSortRanks(orders, xs[..n]);
      var sorted := StableSort(orders, xs[..n]);
      forall k | 0 <= k < |sorted| ensures sorted[k] < xs[n] {
        assert sorted[k] in sorted;
        assert sorted[k] in xs[..n];
      }
      InsertRanks(orders, xs[n], sorted);
      assert xs == xs[..n] + [xs[n]];
      forall j: nat ensures j in StableSort(orders, xs) <==> j in xs {
        InsertAdds(orders, xs[n], sorted, j);
      }
    }
  }

  /** The ranking holds exactly a taker's partners, each once, best first and ties by place in the book. */
  lemma RankingIsRanked(orders: seq<Order>, i: nat, now: U64)
    requires i < |orders|
    ensures var r := Ranking(orders, i, now);
      && Ranked(orders, r)
      && (forall j: nat :: j in r <==> IsPartner(orders[i], orders, i, now, j))
      && (forall a, b :: 0 <= a < b < |r| ==> r[a] != r[b])
  {
    StableSortRanks(orders, Candidates(orders, i, now, |orders|));
  }

  ghost predicate SameElements(xs: seq<nat>, ys: seq<nat>) {
    forall j: nat :: j in xs <==> j in ys
  }

  lemma EmptyTogether(xs: seq<nat>, ys: seq<nat>)
    requires SameElements(xs, ys)
    ensures xs == [] <==> ys == []
  {
    if xs != [] {
      assert xs[0] in ys;
    }
    if ys != [] {
      assert ys[0] in xs;
    }
  }

  /** There is only one such list, so sorting another stable way gives the same answer. */
  lemma {:induction false} RankedIsUnique(orders: seq<Order>, xs: seq<nat>, ys: seq<nat>)
    requires Ranked(orders, xs) && Ranked(orders, ys) && SameElements(xs, ys)
    ensures xs == ys
    decreases |xs|
  {
    EmptyTogether(xs, ys);
    if xs != [] {
      assert xs[0] in xs;
      var k :| 0 <= k < |ys| && ys[k] == xs[0];
      assert ys[0] in ys;
      var l :| 0 <= l < |xs| && xs[l] == ys[0];
      assert xs[0] == ys[0];
      forall j: nat ensures j in xs[1..] <==> j in ys[1..] {
        TailsAgree(orders, xs, ys, j);
        TailsAgree(orders, ys, xs, j);
      }
      RankedIsUnique(orders, xs[1..], ys[1..]);
      assert xs == [xs[0]] + xs[1..] && ys == [ys[0]] + ys[1..];
    }
  }

  lemma TailsAgree(orders: seq<Order>, xs: seq<nat>, ys: seq<nat>, j: nat)
    requires Ranked(orders, xs) && Ranked(orders, ys) && xs != [] && ys != [] && xs[0] == ys[0]
    requires j in xs ==> j in ys
    ensures j in xs[1..] ==> j in ys[1..]
  {
    if j in xs[1..] {
      var a :| 0 <= a < |xs[1..]| && xs[1..][a] == j;
      assert xs[a + 1] == j && j in xs;
      var b :| 0 <= b < |ys| && ys[b] == j;
      assert ys[1..][b - 1] == j;
    }
  }

  /** The one match the book would make is the head of the list it shows that taker. */
  lemma BestIsHead(orders: seq<Order>, i: nat, now: U64, j: nat)
    requires i < |orders|
    ensures IsBest(orders[i], orders, i, now, j) <==>
      Ranking(orders, i, now) != [] && Ranking(orders, i, now)[0] == j
    ensures HasPartner(orders, now, i) <==> Ranking(orders, i, now) != []
  {
    var r := Ranking(orders, i, now);
    RankingIsRanked(orders, i, now);
    if r != [] {
      assert r[0] in r;
      if IsBest(orders[i], orders, i, now, j) {
        assert j in r;
        var k :| 0 <= k < |r| && r[k] == j;
      }
      if r[0] == j {
        forall x | IsPartner(orders[i], orders, i, now, x) && x != j ensures RanksBefore(orders, j, x) {
          assert x in r;
          var k :| 0 <= k < |r| && r[k] == x;
        }
      }
    }
  }
}
