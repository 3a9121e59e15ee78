/** Orders that must not rest, added to a book that is crossed already. The book sweeps only its front
    orders after matching, so such an order can stay behind; this is exactly when it does.
 */
module CrossedBooks {
  import opened PriceTimeBook
  import opened BookTheorems

  // ----- Flat sides

  ghost predicate FlatSorted(f: seq<Order>, s: Side) {
    forall i, j :: 0 <= i < j < |f| ==> !Better(s, f[j].price, f[i].price)
  }

  lemma {:induction false} FlatPrices(levels: seq<Level>, s: Side, k: nat)
    requires SideWf(levels, s) && k < |Flatten(levels)|
    ensures !Better(s, Flatten(levels)[k].price, levels[0].price)
  {
    assert LevelWf(levels[0], s);
    if k >= |levels[0].orders| {
      var rest := levels[1..];
      FlatPrices(rest, s, k - |levels[0].orders|);
      assert Better(s, levels[0].price, rest[0].price);
    }
  }

  lemma {:induction false} FlattenSorted(levels: seq<Level>, s: Side)
    requires SideWf(levels, s)
    ensures FlatSorted(Flatten(levels), s)
  {
    if levels != [] {
      var head, rest := levels[0], levels[1..];
      assert LevelWf(head, s);
      FlattenSorted(rest, s);
      var f := Flatten(levels);
      forall i, j | 0 <= i < j < |f|
        ensures !Better(s, f[j].price, f[i].price)
      {
        if i < |head.orders| {
          FlatPrices(levels, s, j);
        } else {
          assert f[i] == Flatten(rest)[i - |head.orders|] && f[j] == Flatten(rest)[j - |head.orders|];
        }
      }
    }
  }

  lemma {:induction false} FlattenDrop(levels: seq<Level>)
    requires levels != [] && levels[0].orders != []
    ensures Flatten(levels) != [] && Flatten(levels)[0] == levels[0].orders[0]
    ensures Flatten(RemoveAt(levels, 0, 0)) == Flatten(levels)[1..]
  {
    var l, rest := levels[0], levels[1..];
    assert (l.orders + Flatten(rest))[1..] == l.orders[1..] + Flatten(rest);
    if |l.orders| == 1 {
      assert RemoveAt(levels, 0, 0) == rest;
    } else {
      assert l.orders[..0] + l.orders[1..] == l.orders[1..];
      assert RemoveAt(levels, 0, 0) == [Level(l.price, l.orders[1..])] + rest;
      FlattenHead(Level(l.price, l.orders[1..]), rest);
    }
  }

  /** One pass of the matching loop on the flat sides. */
  lemma {:induction false} PassFlat(b: Book, s: Side)
    requires Wf(b)
    ensures var f, g := Flatten(b.Of(s)), Flatten(b.Of(s.Opposite()));
      && (Crossed(b) <==> f != [] && g != [] && Crosses(s, f[0].price, g[0].price))
      && (Crossed(b) ==>
            && b.bids[0].orders != [] && b.asks[0].orders != [] && Wf(MatchOnce(b))
            && var q := Min(f[0].remaining, g[0].remaining);
               && Flatten(MatchOnce(b).Of(s)) == FlatReduce(f, q)
               && Flatten(MatchOnce(b).Of(s.Opposite())) == FlatReduce(g, q))
  {
    FlattenFirst(b.bids, Buy);
    FlattenFirst(b.asks, Sell);
    if Crossed(b) {
      MatchOnceKeepsWf(b);
      var q := FrontTrade(b).bid.qty;
      FlattenReduce(b.bids, q);
      FlattenReduce(b.asks, q);
    }
  }

  // ----- The orders ahead

  /** The orders of a side that an arriving order queues behind. */
  function Ahead(f: seq<Order>, o: Order): seq<Order> {
    if f == [] || Better(o.side, o.price, f[0].price) then [] else [f[0]] + Ahead(f[1..], o)
  }

  lemma {:induction false} InsertSplits(f: seq<Order>, o: Order)
    ensures |Ahead(f, o)| <= |f| && Ahead(f, o) == f[..|Ahead(f, o)|]
    ensures InsertFlat(f, o) == Ahead(f, o) + ([o] + f[|Ahead(f, o)|..])
  {
    if f != [] && !Better(o.side, o.price, f[0].price) {
      InsertSplits(f[1..], o);
      var n := |Ahead(f[1..], o)|;
      assert f[..n + 1] == [f[0]] + f[1..][..n];
      assert f[n + 1..] == f[1..][n..];
    }
  }

  /** The orders of the opposite side within a limit. */
  function Within(contra: seq<Order>, s: Side, price: int): seq<Order> {
    if contra == [] || !Crosses(s, price, contra[0].price) then [] else [contra[0]] + Within(contra[1..], s, price)
  }

  /** How many orders of size zero stand at the end. */
  function Empties(f: seq<Order>): nat {
    if f == [] then 0 else if Total(f) == 0 then |f| else Empties(f[1..])
  }

  /** `f` is used up in trading with `g`: there is more on the other side or, if there is just as
      much, the orders of size zero that are left over find one each. */
  predicate UsedUp(f: seq<Order>, g: seq<Order>) {
    Total(f) < Total(g) || (Total(f) == Total(g) && Empties(f) <= Empties(g))
  }

  /** The opposite side has enough for all of `ahead` within the limit of the last of them. */
  predicate Clears(ahead: seq<Order>, contra: seq<Order>, s: Side) {
    ahead == [] || UsedUp(ahead, Within(contra, s, ahead[|ahead| - 1].price))
  }

  lemma {:induction false} ReduceTotal(f: seq<Order>, q: nat)
    requires f != [] && q <= f[0].remaining
    ensures Total(FlatReduce(f, q)) == Total(f) - q
    ensures Empties(FlatReduce(f, q)) == if Total(f) == 0 then Empties(f) - 1 else Empties(f)
  {
    if f[0].remaining != q {
      assert FlatReduce(f, q)[1..] == f[1..];
    }
  }

  lemma {:induction false} ReduceWithin(g: seq<Order>, s: Side, price: int, q: nat)
    requires g != [] && q <= g[0].remaining && FlatSorted(g, s.Opposite())
    ensures Crosses(s, price, g[0].price) ==> Within(FlatReduce(g, q), s, price) == FlatReduce(Within(g, s, price), q)
    ensures !Crosses(s, price, g[0].price) ==> Within(FlatReduce(g, q), s, price) == []
  {
    assert ([g[0]] + Within(g[1..], s, price))[1..] == Within(g[1..], s, price);
    if g[0].remaining != q {
      assert FlatReduce(g, q)[1..] == g[1..];
    }
  }

  lemma {:induction false} NotUsedUp(f: seq<Order>)
    requires f != []
    ensures !UsedUp(f, [])
  {
  }

  lemma {:induction false} PassUsesUp(f: seq<Order>, g: seq<Order>, q: nat)
    requires f != [] && g != [] && q == Min(f[0].remaining, g[0].remaining)
    ensures FlatReduce(f, q) != [] ==> (UsedUp(FlatReduce(f, q), FlatReduce(g, q)) <==> UsedUp(f, g))
    ensures FlatReduce(f, q) == [] ==> UsedUp(f, g)
  {
    ReduceTotal(f, q);
    ReduceTotal(g, q);
  }

  /** A pass changes nothing about whether the orders ahead clear. */
  lemma {:induction false} PassAhead(ahead: seq<Order>, contra: seq<Order>, s: Side, q: nat)
    requires ahead != [] && contra != [] && FlatSorted(ahead, s) && FlatSorted(contra, s.Opposite())
    requires Crosses(s, ahead[0].price, contra[0].price) && q == Min(ahead[0].remaining, contra[0].remaining)
    ensures Clears(FlatReduce(ahead, q), FlatReduce(contra, q), s) <==> Clears(ahead, contra, s)
  {
    var last := ahead[|ahead| - 1].price;
    var ahead', within := FlatReduce(ahead, q), Within(contra, s, last);
    ReduceWithin(contra, s, last, q);
    assert ahead' != [] ==> ahead'[|ahead'| - 1].price == last;
    if Crosses(s, last, contra[0].price) {
      PassUsesUp(ahead, within, q);
    } else {
      NotUsedUp(ahead);
      NotUsedUp(ahead');
    }
  }

  /** When the loop stops before the orders ahead are gone, they did not clear. */
  lemma {:induction false} StopAhead(ahead: seq<Order>, contra: seq<Order>, s: Side)
    requires ahead != [] && FlatSorted(ahead, s)
    requires contra == [] || !Crosses(s, ahead[0].price, contra[0].price)
    ensures !Clears(ahead, contra, s)
  {
    assert |ahead| > 1 ==> !Better(s, ahead[|ahead| - 1].price, ahead[0].price);
    NotUsedUp(ahead);
  }

  // ----- What matching leaves of the order

  /** The order is gone, or first in its side and about to be swept. */
  predicate Settled(f: seq<Order>, id: nat) {
    && (forall k :: 1 <= k < |f| ==> f[k].id != id)
    && (f != [] && f[0].id == id ==> Aggressive(f[0]))
  }

  /** The order is behind another one, out of reach of the sweep. */
  predicate Stuck(f: seq<Order>, id: nat) {
    exists k :: 1 <= k < |f| && f[k].id == id
  }

  lemma {:induction false} MatchSettles(b: Book, s: Side, id: nat)
    requires Wf(b) && Settled(Flatten(b.Of(s)), id)
    ensures Settled(Flatten(Match(b).book.Of(s)), id)
    decreases Count(b.bids) + Count(b.asks)
  {
    PassFlat(b, s);
    MatchUnroll(b);
    if Crossed(b) {
      MatchSettles(MatchOnce(b), s, id);
    }
  }

  lemma {:induction false} MatchWithout(b: Book, s: Side, id: nat)
    requires Wf(b) && !HasId(Flatten(b.Of(s)), id)
    ensures !HasId(Flatten(Match(b).book.Of(s)), id)
    decreases Count(b.bids) + Count(b.asks)
  {
    PassFlat(b, s);
    MatchUnroll(b);
    if Crossed(b) {
      var f := Flatten(b.Of(s));
      assert forall k :: 0 <= k < |f| ==> f[k].id != id;
      MatchWithout(MatchOnce(b), s, id);
    }
  }

  lemma {:induction false} ReduceAhead(ahead: seq<Order>, tail: seq<Order>, q: nat)
    requires ahead != [] && q <= ahead[0].remaining
    ensures FlatReduce(ahead + tail, q) == FlatReduce(ahead, q) + tail
  {
    assert (ahead + tail)[1..] == ahead[1..] + tail;
  }

  lemma {:induction false} PrefixSorted(ahead: seq<Order>, tail: seq<Order>, s: Side)
    requires FlatSorted(ahead + tail, s)
    ensures FlatSorted(ahead, s)
  {
    forall i, j | 0 <= i < j < |ahead|
      ensures !Better(s, ahead[j].price, ahead[i].price)
    {
      assert (ahead + tail)[i] == ahead[i] && (ahead + tail)[j] == ahead[j];
    }
  }

  ghost predicate Behind(b: Book, s: Side, ahead: seq<Order>, tail: seq<Order>) {
    Wf(b) && Flatten(b.Of(s)) == ahead + tail
  }

  lemma {:induction false} PassBehind(b: Book, s: Side, ahead: seq<Order>, tail: seq<Order>)
    returns (ahead': seq<Order>)
    requires Behind(b, s, ahead, tail) && ahead != [] && Crossed(b)
    ensures b.bids[0].orders != [] && b.asks[0].orders != []
    ensures Behind(MatchOnce(b), s, ahead', tail)
    ensures Clears(ahead', Flatten(MatchOnce(b).Of(s.Opposite())), s) <==> Clears(ahead, Flatten(b.Of(s.Opposite())), s)
  {
    FlattenSorted(b.Of(s), s);
    FlattenSorted(b.Of(s.Opposite()), s.Opposite());
    PrefixSorted(ahead, tail, s);
    PassFlat(b, s);
    var contra := Flatten(b.Of(s.Opposite()));
    var q := Min(ahead[0].remaining, contra[0].remaining);
    PassAhead(ahead, contra, s, q);
    ReduceAhead(ahead, tail, q);
    ahead' := FlatReduce(ahead, q);
  }

  lemma {:induction false} StopBehind(b: Book, s: Side, ahead: seq<Order>, tail: seq<Order>)
    requires Behind(b, s, ahead, tail) && ahead != [] && tail != [] && !Crossed(b)
    ensures !Clears(ahead, Flatten(b.Of(s.Opposite())), s) && Stuck(Flatten(b.Of(s)), tail[0].id)
  {
    FlattenSorted(b.Of(s), s);
    PrefixSorted(ahead, tail, s);
    PassFlat(b, s);
    StopAhead(ahead, Flatten(b.Of(s.Opposite())), s);
    assert (ahead + tail)[|ahead|] == tail[0];
  }

  /** Matching with an order first in `tail`: it gets its turn exactly when the orders ahead clear. */
  lemma {:induction false} MatchBehind(b: Book, s: Side, ahead: seq<Order>, tail: seq<Order>)
    requires Behind(b, s, ahead, tail) && tail != [] && Settled(tail, tail[0].id)
    ensures var f := Flatten(Match(b).book.Of(s));
      if Clears(ahead, Flatten(b.Of(s.Opposite())), s) then Settled(f, tail[0].id) else Stuck(f, tail[0].id)
    decreases Count(b.bids) + Count(b.asks)
  {
    if ahead == [] {
      assert ahead + tail == tail;
      MatchSettles(b, s, tail[0].id);
    } else if Crossed(b) {
      var ahead' := PassBehind(b, s, ahead, tail);
      MatchUnroll(b);
      MatchBehind(MatchOnce(b), s, ahead', tail);
    } else {
      StopBehind(b, s, ahead, tail);
      MatchUnroll(b);
    }
  }

  // ----- The sweep

  lemma {:induction false} SweepSide(levels: seq<Level>, s: Side, id: nat)
    requires SideWf(levels, s)
    ensures Settled(Flatten(levels), id) ==> !HasId(Flatten(DropAggressive(levels)), id)
    ensures Stuck(Flatten(levels), id) ==> HasId(Flatten(DropAggressive(levels)), id)
    ensures !HasId(Flatten(levels), id) ==> !HasId(Flatten(DropAggressive(levels)), id)
  {
    FlattenFirst(levels, s);
    if levels != [] {
      assert LevelWf(levels[0], s);
      FlattenDrop(levels);
      var f := Flatten(levels);
      if Stuck(f, id) {
        var k :| 1 <= k < |f| && f[k].id == id;
        assert f[1..][k - 1].id == id;
      }
    }
  }

  lemma {:induction false} EitherSide(b: Book, s: Side, id: nat)
    ensures HasId(Orders(b), id) <==> HasId(Flatten(b.Of(s)), id) || HasId(Flatten(b.Of(s.Opposite())), id)
  {
    var f, g := Flatten(b.bids), Flatten(b.asks);
    if HasId(f, id) {
      var k :| 0 <= k < |f| && f[k].id == id;
      assert (f + g)[k].id == id;
    }
    if HasId(g, id) {
      var k :| 0 <= k < |g| && g[k].id == id;
      assert (f + g)[|f| + k].id == id;
    }
  }

  /** An order that must not rest stays in the book exactly when the orders it queues behind do not
      clear. */
  lemma {:induction false} ResidueIff(b: Book, o: Order)
    requires Wf(b) && Aggressive(o) && Accepts(b, o)
    ensures HasId(Orders(AddOrder(b, o).book), o.id) <==>
            !Clears(Ahead(Flatten(b.Of(o.side)), o), Flatten(b.Of(o.side.Opposite())), o.side)
  {
    var s := o.side;
    var own, f := b.Of(s), Flatten(b.Of(s));
    var ahead := Ahead(f, o);
    InsertSplits(f, o);
    var tail := [o] + f[|ahead|..];
    var b1 := b.With(s, Rest(own, o));
    RestKeepsSide(own, o);
    FlattenRest(own, o);
    EitherSide(b, s, o.id);
    MatchBehind(b1, s, ahead, tail);
    MatchWithout(b1, s.Opposite(), o.id);
    MatchUncrosses(b1);
    var m := Match(b1).book;
    SweepSide(m.Of(s), s, o.id);
    SweepSide(m.Of(s.Opposite()), s.Opposite(), o.id);
    EitherSide(AddOrder(b, o).book, s, o.id);
  }

  /** In an uncrossed book no order is ahead of one that can match. */
  lemma {:induction false} NoneAhead(b: Book, o: Order)
    requires Wf(b) && !Crossed(b) && CanMatch(b, o.side, o.price)
    ensures Ahead(Flatten(b.Of(o.side)), o) == []
  {
    FlattenFirst(b.Of(o.side), o.side);
  }

  // ----- An order that stays

  lemma {:induction false} FlattenOne(l: Level)
    ensures Flatten([l]) == l.orders
  {
    assert [l][1..] == [];
  }

  lemma {:induction false} FlattenTwo(l: Level, m: Level)
    ensures Flatten([l, m]) == l.orders + m.orders
  {
    assert [l, m][1..] == [m];
    FlattenOne(m);
  }

  /** An immediate-or-cancel buy behind a better bid, in a book whose best bid outlasts its asks. */
  lemma {:induction false} ResidueRests(bid: Order, ask: Order, o: Order)
    requires bid.kind == GoodTillCancel && ask.kind == GoodTillCancel
    requires bid.side == Buy && ask.side == Sell && o.side == Buy
    requires bid.price > o.price >= ask.price
    requires ask.remaining < bid.remaining
    ensures var m := MatchAndDrop(Book([Level(bid.price, [bid]), Level(o.price, [o])], [Level(ask.price, [ask])]));
            && Flatten(m.book.bids) == [bid.(remaining := bid.remaining - ask.remaining), o]
            && Flatten(m.book.asks) == []
  {
    var bids, asks := [Level(bid.price, [bid]), Level(o.price, [o])], [Level(ask.price, [ask])];
    var b, q := Book(bids, asks), ask.remaining;
    var bid' := bid.(remaining := bid.remaining - q);
    ReduceShape(bids, q);
    ReduceShape(asks, q);
    assert [bid'] + [bid][1..] == [bid'];
    assert asks[1..] == [];
    assert bids[1..] == [Level(o.price, [o])];
    var b' := Book([Level(bid.price, [bid']), Level(o.price, [o])], []);
    assert MatchOnce(b) == b';
    MatchUnroll(b);
    MatchUnroll(b');
    FlattenTwo(b'.bids[0], b'.bids[1]);
  }

  /** The hypothesis that the book is uncrossed is needed: in a book left crossed by a modification,
      the residue of an immediate-or-cancel order can rest behind a better price. */
  lemma CrossedBookKeepsResidue()
    ensures exists b: Book, o: Order ::
              && Wf(b) && PassiveBook(b) && Crossed(b)
              && o.kind == ImmediateOrCancel && Accepts(b, o)
              && HasId(Orders(AddOrder(b, o).book), o.id)
  {
    var bid := Order(GoodTillCancel, 1, Buy, 105, 9, 9);
    var ask := Order(GoodTillCancel, 2, Sell, 100, 4, 4);
    var o := Order(ImmediateOrCancel, 3, Buy, 102, 1, 1);
    var b := Book([Level(105, [bid])], [Level(100, [ask])]);
    FlattenOne(b.bids[0]);
    FlattenOne(b.asks[0]);
    assert Orders(b) == [bid, ask];
    assert Accepts(b, o);
    assert Rest(b.bids, o) == [Level(105, [bid]), Level(102, [o])] by {
      RestShape(b.bids, o);
      assert b.bids[1..] == [];
    }
    ResidueRests(bid, ask, o);
    assert Orders(AddOrder(b, o).book)[1] == o;
  }
}
