/** What the book promises: matching from an uncrossed book is the walk of an incoming order
    over the opposite side in (price, arrival) order; every operation conserves quantity;
    fill-or-kill is all or nothing; immediate-or-cancel never rests in an uncrossed book.
 */
module BookTheorems {
  import opened PriceTimeBook

  // ----- The flat specification

  /** Fill the first order of a flat side by `q`, dropping it once filled. */
  function FlatReduce(f: seq<Order>, q: nat): seq<Order>
    requires f != [] && q <= f[0].remaining
  {
    if f[0].remaining == q then f[1..] else f[0 := f[0].(remaining := f[0].remaining - q)]
  }

  function TradeOf(o: Order, resting: Order, q: nat): Trade {
    var own, other := TradeInfo(o.id, o.price, q), TradeInfo(resting.id, resting.price, q);
    if o.side == Buy then Trade(own, other) else Trade(other, own)
  }

  datatype Walked = Walked(trades: seq<Trade>, contra: seq<Order>, order: Order, filled: bool)

  /** Walk an incoming order over the opposite side until it is filled or nothing crosses. */
  function Walk(contra: seq<Order>, o: Order): Walked {
    if contra == [] || !Crosses(o.side, o.price, contra[0].price) then Walked([], contra, o, false)
    else
      var q := Min(o.remaining, contra[0].remaining);
      var t := TradeOf(o, contra[0], q);
      var o' := o.(remaining := o.remaining - q);
      if o'.remaining == 0 then Walked([t], FlatReduce(contra, q), o', true)
      else
        var w := Walk(contra[1..], o');
        w.(trades := [t] + w.trades)
  }

  /** Insert by (price, arrival): behind every order that is not strictly worse. */
  function InsertFlat(f: seq<Order>, o: Order): seq<Order> {
    if f == [] || Better(o.side, o.price, f[0].price) then [o] + f
    else [f[0]] + InsertFlat(f[1..], o)
  }

  ghost predicate Passive(levels: seq<Level>) {
    forall i, k :: 0 <= i < |levels| && 0 <= k < |levels[i].orders| ==> !Aggressive(levels[i].orders[k])
  }

  ghost predicate PassiveBook(b: Book) {
    Passive(b.bids) && Passive(b.asks)
  }

  // ----- Each level operation keeps a side well formed

  lemma SlotSplits(levels: seq<Level>, s: Side, price: int)
    ensures var i := Slot(levels, s, price);
            && (forall k :: 0 <= k < i ==> Better(s, levels[k].price, price))
            && (i < |levels| ==> !Better(s, levels[i].price, price))
  {
    if levels != [] && Better(s, levels[0].price, price) {
      SlotSplits(levels[1..], s, price);
      var i := Slot(levels[1..], s, price);
      forall k | 0 <= k < i + 1
        ensures Better(s, levels[k].price, price)
      {
        if k > 0 {
          assert levels[k] == levels[1..][k - 1];
        }
      }
    }
  }

  lemma {:induction false} SetKeepsSide(levels: seq<Level>, s: Side, i: nat, l: Level)
    requires SideWf(levels, s) && i < |levels|
    requires l.price == levels[i].price && LevelWf(l, s)
    ensures SideWf(levels[i := l], s)
  {
    var r := levels[i := l];
    forall j, k | 0 <= j < k < |r|
      ensures Better(s, r[j].price, r[k].price)
    {
      assert r[j].price == levels[j].price && r[k].price == levels[k].price;
    }
  }

  lemma {:induction false} InsertKeepsSide(levels: seq<Level>, s: Side, i: nat, l: Level)
    requires SideWf(levels, s) && i <= |levels| && LevelWf(l, s)
    requires forall k :: 0 <= k < i ==> Better(s, levels[k].price, l.price)
    requires i < |levels| ==> Better(s, l.price, levels[i].price)
    ensures SideWf(levels[..i] + [l] + levels[i..], s)
  {
    var r := levels[..i] + [l] + levels[i..];
    forall j, k | 0 <= j < k < |r|
      ensures Better(s, r[j].price, r[k].price)
    {
      assert k == i || r[k] == (if k < i then levels[k] else levels[k - 1]);
      assert j == i || r[j] == (if j < i then levels[j] else levels[j - 1]);
    }
  }

  lemma {:induction false} RestKeepsSide(levels: seq<Level>, o: Order)
    requires SideWf(levels, o.side)
    ensures SideWf(Rest(levels, o), o.side)
  {
    SlotSplits(levels, o.side, o.price);
    var i := Slot(levels, o.side, o.price);
    if i < |levels| && levels[i].price == o.price {
      assert LevelWf(levels[i], o.side);
      SetKeepsSide(levels, o.side, i, Level(o.price, levels[i].orders + [o]));
    } else {
      InsertKeepsSide(levels, o.side, i, Level(o.price, [o]));
    }
  }

  lemma {:induction false} RestKeepsPassive(levels: seq<Level>, o: Order)
    requires Passive(levels) && !Aggressive(o)
    ensures Passive(Rest(levels, o))
  {
  }

  lemma {:induction false} RemoveKeepsSide(levels: seq<Level>, s: Side, l: nat, k: nat)
    requires SideWf(levels, s)
    requires l < |levels| && k < |levels[l].orders|
    ensures SideWf(RemoveAt(levels, l, k), s)
    ensures Passive(levels) ==> Passive(RemoveAt(levels, l, k))
  {
    var r := RemoveAt(levels, l, k);
    if |levels[l].orders| == 1 {
      assert forall i :: 0 <= i < |r| ==> r[i] == if i < l then levels[i] else levels[i + 1];
    } else {
      assert LevelWf(r[l], s);
    }
  }

  lemma {:induction false} FillKeepsSide(levels: seq<Level>, s: Side, q: nat)
    requires SideWf(levels, s)
    requires levels != [] && q <= levels[0].orders[0].remaining
    ensures SideWf(FillFront(levels, q), s)
    ensures Passive(levels) ==> Passive(FillFront(levels, q))
  {
    var r := FillFront(levels, q);
    assert LevelWf(levels[0], s);
    assert forall i :: 0 <= i < |r| ==> r[i].price == levels[i].price;
    assert forall k :: 0 <= k < |r[0].orders| ==> r[0].orders[k].kind == levels[0].orders[k].kind;
    assert LevelWf(r[0], s);
  }

  lemma {:induction false} ReduceKeepsSide(levels: seq<Level>, s: Side, q: nat)
    requires SideWf(levels, s)
    requires levels != [] && q <= levels[0].orders[0].remaining
    ensures SideWf(ReduceFront(levels, q), s)
    ensures Passive(levels) ==> Passive(ReduceFront(levels, q))
    ensures ReduceFront(levels, q) != [] ==> !Better(s, ReduceFront(levels, q)[0].price, levels[0].price)
  {
    FillKeepsSide(levels, s, q);
    var f := FillFront(levels, q);
    if f[0].orders[0].remaining == 0 {
      RemoveKeepsSide(f, s, 0, 0);
    }
  }

  // ----- Flattening commutes with the level operations

  lemma {:induction false} FlattenHead(head: Level, levels: seq<Level>)
    ensures Flatten([head] + levels) == head.orders + Flatten(levels)
  {
    assert ([head] + levels)[1..] == levels;
  }

  lemma {:induction false} ReduceShape(levels: seq<Level>, q: nat)
    requires levels != [] && levels[0].orders != [] && q <= levels[0].orders[0].remaining
    ensures var l := levels[0];
            var rest := levels[1..];
            var o := l.orders[0];
            ReduceFront(levels, q) ==
              if o.remaining != q then [Level(l.price, [o.(remaining := o.remaining - q)] + l.orders[1..])] + rest
              else if |l.orders| == 1 then rest
              else [Level(l.price, l.orders[1..])] + rest
  {
    var l := levels[0];
    var o := l.orders[0];
    var f := FillFront(levels, q);
    assert f == [f[0]] + levels[1..];
    assert f[0].orders == [o.(remaining := o.remaining - q)] + l.orders[1..];
    if o.remaining == q && |l.orders| > 1 {
      assert f[0].orders[..0] + f[0].orders[1..] == l.orders[1..];
    }
  }

  lemma {:induction false} FlattenReduced(l: Level, rest: seq<Level>, o: Order)
    requires l.orders != []
    ensures Flatten([Level(l.price, [o] + l.orders[1..])] + rest) == Flatten([l] + rest)[0 := o]
  {
    FlattenHead(l, rest);
    FlattenHead(Level(l.price, [o] + l.orders[1..]), rest);
    assert (l.orders + Flatten(rest))[0 := o] == ([o] + l.orders[1..]) + Flatten(rest);
  }

  lemma {:induction false} FlattenRemoved(l: Level, rest: seq<Level>)
    requires l.orders != []
    ensures Flatten([Level(l.price, l.orders[1..])] + rest) == Flatten([l] + rest)[1..]
    ensures |l.orders| == 1 ==> Flatten(rest) == Flatten([l] + rest)[1..]
  {
    FlattenHead(l, rest);
    FlattenHead(Level(l.price, l.orders[1..]), rest);
    assert (l.orders + Flatten(rest))[1..] == l.orders[1..] + Flatten(rest);
    assert |l.orders| == 1 ==> l.orders[1..] + Flatten(rest) == Flatten(rest);
  }

  lemma {:induction false} FlattenReduce(levels: seq<Level>, q: nat)
    requires levels != [] && levels[0].orders != [] && q <= levels[0].orders[0].remaining
    ensures Flatten(levels) != [] && Flatten(levels)[0] == levels[0].orders[0]
    ensures Flatten(ReduceFront(levels, q)) == FlatReduce(Flatten(levels), q)
  {
    ReduceShape(levels, q);
    var l, rest := levels[0], levels[1..];
    var o := l.orders[0];
    assert levels == [l] + rest;
    if o.remaining != q {
      FlattenReduced(l, rest, o.(remaining := o.remaining - q));
    } else {
      FlattenRemoved(l, rest);
    }
  }

  lemma InsertSkips(front: seq<Order>, rest: seq<Order>, o: Order)
    requires forall k :: 0 <= k < |front| ==> !Better(o.side, o.price, front[k].price)
    ensures InsertFlat(front + rest, o) == front + InsertFlat(rest, o)
  {
    if front == [] {
      assert front + rest == rest;
    } else {
      assert (front + rest)[1..] == front[1..] + rest;
      InsertSkips(front[1..], rest, o);
    }
  }

  lemma {:induction false} FlattenFirst(levels: seq<Level>, s: Side)
    requires SideWf(levels, s)
    ensures levels == [] <==> Flatten(levels) == []
    ensures levels != [] ==> Flatten(levels)[0] == levels[0].orders[0] && Flatten(levels)[0].price == levels[0].price
  {
    if levels != [] {
      assert LevelWf(levels[0], s);
    }
  }

  lemma {:induction false} RestShape(levels: seq<Level>, o: Order)
    requires levels != []
    ensures var rest := levels[1..];
            Rest(levels, o) ==
              if Better(o.side, levels[0].price, o.price) then [levels[0]] + Rest(rest, o)
              else if levels[0].price == o.price then [Level(o.price, levels[0].orders + [o])] + rest
              else [Level(o.price, [o])] + levels
  {
    var i := Slot(levels, o.side, o.price);
    if i > 0 {
      var rest := levels[1..];
      assert Slot(rest, o.side, o.price) == i - 1;
      assert i < |levels| ==> rest[i - 1] == levels[i];
      if !(i < |levels| && levels[i].price == o.price) {
        assert levels[..i] == [levels[0]] + rest[..i - 1];
        assert levels[i..] == rest[i - 1..];
      }
    }
  }

  lemma {:induction false} InsertBefore(levels: seq<Level>, o: Order)
    requires SideWf(levels, o.side)
    requires levels != [] ==> Better(o.side, o.price, levels[0].price)
    ensures InsertFlat(Flatten(levels), o) == [o] + Flatten(levels)
  {
    FlattenFirst(levels, o.side);
  }

  lemma {:induction false} RestBehindHead(head: Level, rest: seq<Level>, o: Order)
    requires LevelWf(head, o.side) && Better(o.side, head.price, o.price)
    requires Flatten(Rest(rest, o)) == InsertFlat(Flatten(rest), o)
    ensures Flatten([head] + Rest(rest, o)) == InsertFlat(head.orders + Flatten(rest), o)
  {
    InsertSkips(head.orders, Flatten(rest), o);
    FlattenHead(head, Rest(rest, o));
  }

  lemma {:induction false} RestWithHead(head: Level, rest: seq<Level>, o: Order)
    requires LevelWf(head, o.side) && head.price == o.price && SideWf(rest, o.side)
    requires rest != [] ==> Better(o.side, o.price, rest[0].price)
    ensures Flatten([Level(o.price, head.orders + [o])] + rest) == InsertFlat(head.orders + Flatten(rest), o)
  {
    InsertSkips(head.orders, Flatten(rest), o);
    InsertBefore(rest, o);
    FlattenHead(Level(o.price, head.orders + [o]), rest);
    assert (head.orders + [o]) + Flatten(rest) == head.orders + ([o] + Flatten(rest));
  }

  lemma {:induction false} FlattenRest(levels: seq<Level>, o: Order)
    requires SideWf(levels, o.side)
    ensures Flatten(Rest(levels, o)) == InsertFlat(Flatten(levels), o)
  {
    if levels == [] {
      assert Rest(levels, o) == [Level(o.price, [o])] + [];
      FlattenHead(Level(o.price, [o]), []);
    } else {
      RestShape(levels, o);
      var head, rest := levels[0], levels[1..];
      assert LevelWf(head, o.side);
      if Better(o.side, head.price, o.price) {
        FlattenRest(rest, o);
        RestBehindHead(head, rest, o);
      } else if head.price == o.price {
        RestWithHead(head, rest, o);
      } else {
        InsertBefore(levels, o);
        FlattenHead(Level(o.price, [o]), levels);
      }
    }
  }

  // ----- Matching

  lemma {:induction false} MatchOnceKeepsWf(b: Book)
    requires Wf(b) && Crossed(b)
    ensures b.bids[0].orders != [] && b.asks[0].orders != []
    ensures Wf(MatchOnce(b))
    ensures Passive(b.bids) ==> Passive(MatchOnce(b).bids)
    ensures Passive(b.asks) ==> Passive(MatchOnce(b).asks)
  {
    assert LevelWf(b.bids[0], Buy) && LevelWf(b.asks[0], Sell);
    var q := FrontTrade(b).bid.qty;
    ReduceKeepsSide(b.bids, Buy, q);
    ReduceKeepsSide(b.asks, Sell, q);
  }

  /** Matching any well-formed book ends, and ends uncrossed and well formed. */
  lemma {:induction false} MatchUncrosses(b: Book)
    requires Wf(b)
    ensures Wf(Match(b).book) && !Crossed(Match(b).book)
    ensures Passive(b.bids) ==> Passive(Match(b).book.bids)
    ensures Passive(b.asks) ==> Passive(Match(b).book.asks)
    decreases Count(b.bids) + Count(b.asks)
  {
    if Crossed(b) {
      MatchOnceKeepsWf(b);
      MatchUncrosses(MatchOnce(b));
    }
  }

  /** One pass of the matching loop when an incoming order stands alone at the front of its side. */
  lemma {:induction false} FrontPass(s: Side, own: seq<Level>, contra: seq<Level>, o: Order, q: nat, own': seq<Level>)
    requires o.side == s
    requires contra != [] && LevelWf(contra[0], s.Opposite())
    requires Crosses(s, o.price, contra[0].price)
    requires q == Min(o.remaining, contra[0].orders[0].remaining)
    requires own' == if o.remaining == q then own else [Level(o.price, [o.(remaining := o.remaining - q)])] + own
    ensures var b := MakeBook(s, [Level(o.price, [o])] + own, contra);
            && Crossed(b) && b.bids[0].orders != [] && b.asks[0].orders != []
            && FrontTrade(b) == TradeOf(o, contra[0].orders[0], q)
            && MatchOnce(b) == MakeBook(s, own', ReduceFront(contra, q))
  {
    FrontReduce(own, o, q);
    assert contra[0].orders[0].price == contra[0].price;
    var front := [Level(o.price, [o])] + own;
    assert front[0] == Level(o.price, [o]);
    if s == Buy {
      var b := Book(front, contra);
      assert MatchOnce(b) == Book(ReduceFront(front, q), ReduceFront(contra, q));
    } else {
      var b := Book(contra, front);
      assert MatchOnce(b) == Book(ReduceFront(contra, q), ReduceFront(front, q));
    }
  }

  lemma {:induction false} MatchUnroll(b: Book)
    requires Crossed(b) ==> b.bids[0].orders != [] && b.asks[0].orders != []
    ensures !Crossed(b) ==> Match(b) == Matched([], b)
    ensures Crossed(b) ==> var r := Match(MatchOnce(b)); Match(b) == Matched([FrontTrade(b)] + r.trades, r.book)
  {
  }

  lemma {:induction false} WalkPass(contra: seq<Level>, o: Order, q: nat)
    requires SideWf(contra, o.side.Opposite())
    requires contra != [] && Crosses(o.side, o.price, contra[0].price)
    requires q == Min(o.remaining, contra[0].orders[0].remaining)
    ensures var t := TradeOf(o, contra[0].orders[0], q);
            var o' := o.(remaining := o.remaining - q);
            var f' := Flatten(ReduceFront(contra, q));
            var w := Walk(f', o');
            Walk(Flatten(contra), o) ==
              if o'.remaining == 0 then Walked([t], f', o', true) else w.(trades := [t] + w.trades)
  {
    FlattenFirst(contra, o.side.Opposite());
    FlattenReduce(contra, q);
  }

  /** The result `m` of matching is the result `w` of the walk, for an order that came in at `price`. */
  ghost predicate IsWalk(m: Matched, w: Walked, s: Side, own: seq<Level>, price: int) {
    && m.trades == w.trades
    && Flatten(m.book.Of(s.Opposite())) == w.contra
    && m.book.Of(s) == if w.filled then own else [Level(price, [w.order])] + own
  }

  /** An incoming order alone at the front of its side: matching is the walk. */
  lemma {:induction false} MatchIsWalk(s: Side, own: seq<Level>, contra: seq<Level>, o: Order)
    requires o.side == s
    requires SideWf(contra, s.Opposite())
    requires !Crossed(MakeBook(s, own, contra))
    ensures IsWalk(Match(MakeBook(s, [Level(o.price, [o])] + own, contra)), Walk(Flatten(contra), o), s, own, o.price)
    decreases Count(contra)
  {
    var b := MakeBook(s, [Level(o.price, [o])] + own, contra);
    if contra != [] && Crosses(s, o.price, contra[0].price) {
      assert LevelWf(contra[0], s.Opposite());
      var q := Min(o.remaining, contra[0].orders[0].remaining);
      var o', contra' := o.(remaining := o.remaining - q), ReduceFront(contra, q);
      var own' := if o.remaining == q then own else [Level(o.price, [o'])] + own;
      FrontPass(s, own, contra, o, q, own');
      WalkPass(contra, o, q);
      ReduceKeepsSide(contra, s.Opposite(), q);
      assert !Crossed(MakeBook(s, own, contra'));
      MatchUnroll(b);
      if o'.remaining != 0 {
        CountReduce(contra, q);
        MatchIsWalk(s, own, contra', o');
      } else {
        MatchUnroll(MakeBook(s, own', contra'));
      }
    } else {
      FlattenFirst(contra, s.Opposite());
      MatchUnroll(b);
    }
  }

  lemma {:induction false} FrontReduce(own: seq<Level>, o: Order, q: nat)
    requires q <= o.remaining
    ensures ReduceFront([Level(o.price, [o])] + own, q) ==
            if o.remaining == q then own else [Level(o.price, [o.(remaining := o.remaining - q)])] + own
  {
    ReduceShape([Level(o.price, [o])] + own, q);
    assert ([Level(o.price, [o])] + own)[1..] == own;
    var o' := o.(remaining := o.remaining - q);
    assert [o'] + [o][1..] == [o'];
  }

  lemma {:induction false} RestAtFront(own: seq<Level>, contra: seq<Level>, o: Order)
    requires SideWf(own, o.side)
    requires !Crossed(MakeBook(o.side, own, contra))
    requires contra != [] && Crosses(o.side, o.price, contra[0].price)
    ensures Rest(own, o) == [Level(o.price, [o])] + own
  {
    SlotSplits(own, o.side, o.price);
  }

  /** No crossing order: resting keeps the book uncrossed, so matching does nothing. */
  lemma {:induction false} RestKeepsUncrossed(b: Book, o: Order)
    requires Wf(b) && !Crossed(b) && !CanMatch(b, o.side, o.price)
    ensures !Crossed(b.With(o.side, Rest(b.Of(o.side), o)))
  {
    SlotSplits(b.Of(o.side), o.side, o.price);
  }

  lemma {:induction false} MatchCrossing(b: Book, o: Order)
    requires Wf(b) && !Crossed(b) && PassiveBook(b)
    requires CanMatch(b, o.side, o.price)
    ensures var m := Match(b.With(o.side, Rest(b.Of(o.side), o)));
            var contra := m.book.Of(o.side.Opposite());
            && IsWalk(m, Walk(Flatten(b.Of(o.side.Opposite())), o), o.side, b.Of(o.side), o.price)
            && SideWf(contra, o.side.Opposite()) && Passive(contra) && !Crossed(m.book)
  {
    var s := o.side;
    var own, contra := b.Of(s), b.Of(s.Opposite());
    RestKeepsSide(own, o);
    MatchUncrosses(b.With(s, Rest(own, o)));
    RestAtFront(own, contra, o);
    MatchIsWalk(s, own, contra, o);
  }

  /** The sweep after a match that was the walk of `o`. */
  lemma {:induction false} DropAfterWalk(m: Book, s: Side, own: seq<Level>, price: int, o: Order, filled: bool)
    requires Passive(own) && Passive(m.Of(s.Opposite())) && o.price == price
    requires m.Of(s) == if filled then own else [Level(price, [o])] + own
    ensures var d := Book(DropAggressive(m.bids), DropAggressive(m.asks));
      && d.Of(s.Opposite()) == m.Of(s.Opposite())
      && d.Of(s) == if filled || Aggressive(o) then own else [Level(price, [o])] + own
  {
    DropFront(own, o);
  }

  lemma {:induction false} AddCrossing(b: Book, o: Order)
    requires Wf(b) && !Crossed(b) && PassiveBook(b)
    requires CanMatch(b, o.side, o.price)
    ensures var r := MatchAndDrop(b.With(o.side, Rest(b.Of(o.side), o)));
            var w := Walk(Flatten(b.Of(o.side.Opposite())), o);
            && r.trades == w.trades
            && Flatten(r.book.Of(o.side.Opposite())) == w.contra
            && r.book.Of(o.side) == (if w.filled || Aggressive(o) then b.Of(o.side) else Rest(b.Of(o.side), w.order))
            && SideWf(r.book.Of(o.side.Opposite()), o.side.Opposite())
            && Passive(r.book.Of(o.side.Opposite()))
            && !Crossed(r.book)
  {
    var s := o.side;
    var own, contra := b.Of(s), b.Of(s.Opposite());
    var w := Walk(Flatten(contra), o);
    MatchCrossing(b, o);
    WalkKeepsTerms(Flatten(contra), o);
    RestAtFront(own, contra, w.order);
    DropAfterWalk(Match(b.With(s, Rest(own, o))).book, s, own, o.price, w.order, w.filled);
  }

  lemma {:induction false} DropFront(own: seq<Level>, o: Order)
    requires Passive(own)
    ensures DropAggressive(own) == own
    ensures DropAggressive([Level(o.price, [o])] + own) == if Aggressive(o) then own else [Level(o.price, [o])] + own
  {
    assert RemoveAt([Level(o.price, [o])] + own, 0, 0) == own;
  }

  lemma {:induction false} AddResting(b: Book, o: Order)
    requires Wf(b) && !Crossed(b) && PassiveBook(b)
    requires !CanMatch(b, o.side, o.price) && !Aggressive(o)
    ensures MatchAndDrop(b.With(o.side, Rest(b.Of(o.side), o))) == Matched([], b.With(o.side, Rest(b.Of(o.side), o)))
  {
    RestKeepsUncrossed(b, o);
    RestKeepsPassive(b.Of(o.side), o);
  }

  /** The trades and both sides of `r` are those of the walk of `o` over the opposite side of `b`; what
      is left of `o` rests by (price, arrival) unless it must not rest. */
  ghost predicate WalkedBook(b: Book, o: Order, r: Matched) {
    var w := Walk(Flatten(b.Of(o.side.Opposite())), o);
    && r.trades == w.trades
    && Flatten(r.book.Of(o.side.Opposite())) == w.contra
    && Flatten(r.book.Of(o.side)) == if w.filled || Aggressive(o) then Flatten(b.Of(o.side))
                                     else InsertFlat(Flatten(b.Of(o.side)), w.order)
  }

  lemma {:induction false} AcceptedIsWalk(b: Book, o: Order)
    requires Wf(b) && !Crossed(b) && PassiveBook(b) && Accepts(b, o)
    ensures WalkedBook(b, o, AddOrder(b, o))
  {
    var s := o.side;
    var own, contra := b.Of(s), b.Of(s.Opposite());
    var w := Walk(Flatten(contra), o);
    if CanMatch(b, s, o.price) {
      AddCrossing(b, o);
      WalkKeepsTerms(Flatten(contra), o);
      FlattenRest(own, w.order);
    } else {
      AddResting(b, o);
      FlattenFirst(contra, s.Opposite());
      FlattenRest(own, o);
    }
  }

  lemma {:induction false} ImmediateStops(b: Book, o: Order)
    requires Wf(b) && o.kind == ImmediateOrCancel && !CanMatch(b, o.side, o.price)
    ensures WalkedBook(b, o, Matched([], b))
  {
    FlattenFirst(b.Of(o.side.Opposite()), o.side.Opposite());
  }

  /** The central theorem: from an uncrossed book in which nothing aggressive rests, adding any order
      with a new id is walking the opposite side in (price, arrival) order, except that a fill-or-kill
      order which the walk would not fill changes nothing; nor does an order whose id is in the book. */
  lemma {:induction false} AddOrderIsWalk(b: Book, o: Order)
    requires Wf(b) && !Crossed(b) && PassiveBook(b)
    ensures HasId(Orders(b), o.id) ==> AddOrder(b, o) == Matched([], b)
    ensures !HasId(Orders(b), o.id) && o.kind == FillOrKill && !Walk(Flatten(b.Of(o.side.Opposite())), o).filled ==>
              AddOrder(b, o) == Matched([], b)
    ensures !HasId(Orders(b), o.id) && (o.kind == FillOrKill ==> Walk(Flatten(b.Of(o.side.Opposite())), o).filled) ==>
              WalkedBook(b, o, AddOrder(b, o))
  {
    if HasId(Orders(b), o.id) {
    } else if Accepts(b, o) {
      AcceptedIsWalk(b, o);
      if o.kind == FillOrKill {
        AcceptedFillOrKill(b, o);
      }
    } else if o.kind == FillOrKill {
      AcceptedFillOrKill(b, o);
    } else {
      ImmediateStops(b, o);
    }
  }

  lemma WalkKeepsTerms(contra: seq<Order>, o: Order)
    ensures var w := Walk(contra, o); w.order == o.(remaining := w.order.remaining)
    ensures Walk(contra, o).filled ==> Walk(contra, o).order.remaining == 0
  {
  }

  // ----- What every addition keeps

  /** From an uncrossed book nothing aggressive ever rests: no residue of an immediate-or-cancel
      or fill-or-kill order stays behind, and the book stays well formed and uncrossed. */
  lemma {:induction false} AddOrderKeepsBook(b: Book, o: Order)
    requires Wf(b) && !Crossed(b) && PassiveBook(b)
    ensures var r := AddOrder(b, o).book; Wf(r) && !Crossed(r) && PassiveBook(r)
  {
    if Accepts(b, o) {
      var s := o.side;
      if CanMatch(b, s, o.price) {
        AddCrossing(b, o);
        var w := Walk(Flatten(b.Of(s.Opposite())), o);
        WalkKeepsTerms(Flatten(b.Of(s.Opposite())), o);
        if !w.filled && !Aggressive(o) {
          RestKeepsSide(b.Of(s), w.order);
          RestKeepsPassive(b.Of(s), w.order);
        }
      } else {
        AddResting(b, o);
        RestKeepsUncrossed(b, o);
        RestKeepsSide(b.Of(s), o);
        RestKeepsPassive(b.Of(s), o);
      }
    }
  }

  // ----- Conservation

  /** Remaining quantity of the orders with this id. */
  function Remaining(f: seq<Order>, id: nat): nat {
    if f == [] then 0 else (if f[0].id == id then f[0].remaining else 0) + Remaining(f[1..], id)
  }

  /** Quantity the trades take from the orders with this id. */
  function Traded(ts: seq<Trade>, id: nat): nat {
    if ts == [] then 0
    else (if ts[0].bid.id == id then ts[0].bid.qty else 0)
         + (if ts[0].ask.id == id then ts[0].ask.qty else 0)
         + Traded(ts[1..], id)
  }

  lemma RemainingConcat(f: seq<Order>, g: seq<Order>, id: nat)
    ensures Remaining(f + g, id) == Remaining(f, id) + Remaining(g, id)
  {
    if f == [] {
      assert f + g == g;
    } else {
      assert (f + g)[1..] == f[1..] + g;
    }
  }

  lemma {:induction false} RemainingReduce(f: seq<Order>, q: nat, id: nat)
    requires f != [] && q <= f[0].remaining
    ensures Remaining(FlatReduce(f, q), id) == Remaining(f, id) - (if f[0].id == id then q else 0)
  {
    if f[0].remaining != q {
      assert FlatReduce(f, q)[1..] == f[1..];
    }
  }

  /** One pass moves the traded quantity out of both front orders and out of no other order. */
  lemma {:induction false} MatchOnceConserves(b: Book, id: nat)
    requires Wf(b) && Crossed(b)
    ensures b.bids[0].orders != [] && b.asks[0].orders != []
    ensures Remaining(Orders(b), id) == Remaining(Orders(MatchOnce(b)), id) + Traded([FrontTrade(b)], id)
  {
    assert LevelWf(b.bids[0], Buy) && LevelWf(b.asks[0], Sell);
    var q := FrontTrade(b).bid.qty;
    var bids, asks := Flatten(b.bids), Flatten(b.asks);
    FlattenReduce(b.bids, q);
    FlattenReduce(b.asks, q);
    RemainingReduce(bids, q, id);
    RemainingReduce(asks, q, id);
    RemainingConcat(bids, asks, id);
    RemainingConcat(FlatReduce(bids, q), FlatReduce(asks, q), id);
    assert Traded([], id) == 0;
  }

  /** Matching any well-formed book, crossed as deep as it may be, conserves every order:
      what an order had left before is what it has left after plus what it traded. */
  lemma {:induction false} MatchConserves(b: Book, id: nat)
    requires Wf(b)
    ensures Remaining(Orders(b), id) == Remaining(Orders(Match(b).book), id) + Traded(Match(b).trades, id)
    decreases Count(b.bids) + Count(b.asks)
  {
    if Crossed(b) {
      MatchOnceConserves(b, id);
      MatchOnceKeepsWf(b);
      MatchUnroll(b);
      MatchConserves(MatchOnce(b), id);
      var ts := Match(MatchOnce(b)).trades;
      assert ([FrontTrade(b)] + ts)[1..] == ts;
    }
  }

  /** The walk takes from each resting order exactly what it trades, puts the incoming order on
      its own leg of every trade, and accounts for all of the incoming order. */
  lemma {:induction false} WalkConserves(contra: seq<Order>, o: Order, id: nat)
    requires forall k :: 0 <= k < |contra| ==> contra[k].id != o.id
    ensures var w := Walk(contra, o);
            && (forall k :: 0 <= k < |w.trades| ==>
                  (if o.side == Buy then w.trades[k].bid else w.trades[k].ask).id == o.id)
            && Traded(w.trades, o.id) + w.order.remaining == o.remaining
            && (id != o.id ==> Remaining(contra, id) == Remaining(w.contra, id) + Traded(w.trades, id))
    decreases contra
  {
    if contra != [] && Crosses(o.side, o.price, contra[0].price) {
      var q := Min(o.remaining, contra[0].remaining);
      var t := TradeOf(o, contra[0], q);
      RemainingReduce(contra, q, id);
      assert Traded([], o.id) == 0 && Traded([], id) == 0;
      if o.remaining != q {
        var o' := o.(remaining := o.remaining - q);
        WalkConserves(contra[1..], o', id);
        var ts := Walk(contra[1..], o').trades;
        assert ([t] + ts)[1..] == ts;
      }
    }
  }

  // ----- Fill-or-kill

  /** Quantity the walk can reach. */
  function Reach(f: seq<Order>, s: Side, price: int): nat {
    if f == [] || !Crosses(s, price, f[0].price) then 0 else f[0].remaining + Reach(f[1..], s, price)
  }

  /** The walk fills the order exactly when it can start and the reachable quantity suffices. */
  lemma {:induction false} WalkFilledIff(contra: seq<Order>, o: Order)
    ensures Walk(contra, o).filled <==>
            contra != [] && Crosses(o.side, o.price, contra[0].price) && o.remaining <= Reach(contra, o.side, o.price)
  {
    if contra != [] && Crosses(o.side, o.price, contra[0].price) {
      var q := Min(o.remaining, contra[0].remaining);
      if o.remaining != q {
        WalkFilledIff(contra[1..], o.(remaining := o.remaining - q));
      }
    }
  }

  lemma {:induction false} ReachConcat(orders: seq<Order>, rest: seq<Order>, s: Side, price: int)
    requires forall k :: 0 <= k < |orders| ==> Crosses(s, price, orders[k].price)
    ensures Reach(orders + rest, s, price) == Total(orders) + Reach(rest, s, price)
  {
    if orders == [] {
      assert orders + rest == rest;
    } else {
      assert (orders + rest)[1..] == orders[1..] + rest;
      ReachConcat(orders[1..], rest, s, price);
    }
  }

  lemma {:induction false} AvailableBeyond(levels: seq<Level>, s: Side, price: int)
    requires forall i :: 0 <= i < |levels| ==> !Crosses(s, price, levels[i].price)
    ensures Available(levels, s, price) == 0
  {
    if levels != [] {
      AvailableBeyond(levels[1..], s, price);
    }
  }

  /** The level totals that the fill-or-kill check adds up are the quantity the walk can reach. */
  lemma {:induction false} AvailableIsReach(levels: seq<Level>, s: Side, price: int)
    requires SideWf(levels, s.Opposite())
    ensures Available(levels, s, price) == Reach(Flatten(levels), s, price)
  {
    FlattenFirst(levels, s.Opposite());
    if levels != [] {
      assert LevelWf(levels[0], s.Opposite());
      if Crosses(s, price, levels[0].price) {
        AvailableIsReach(levels[1..], s, price);
        ReachConcat(levels[0].orders, Flatten(levels[1..]), s, price);
      } else {
        AvailableBeyond(levels, s, price);
      }
    }
  }

  lemma {:induction false} AcceptedFillOrKill(b: Book, o: Order)
    requires Wf(b) && o.kind == FillOrKill && !HasId(Orders(b), o.id)
    ensures Accepts(b, o) <==> Walk(Flatten(b.Of(o.side.Opposite())), o).filled
  {
    var contra := b.Of(o.side.Opposite());
    FlattenFirst(contra, o.side.Opposite());
    AvailableIsReach(contra, o.side, o.price);
    WalkFilledIff(Flatten(contra), o);
  }

  /** From an uncrossed book a fill-or-kill order is filled completely or changes nothing, and it
      is filled exactly when the walk over the opposite side would fill it. */
  lemma {:induction false} FillOrKillIsAllOrNothing(b: Book, o: Order)
    requires Wf(b) && !Crossed(b) && PassiveBook(b)
    requires o.kind == FillOrKill && !HasId(Orders(b), o.id)
    ensures var r := AddOrder(b, o);
            var w := Walk(Flatten(b.Of(o.side.Opposite())), o);
            if w.filled
            then r.trades == w.trades && Traded(r.trades, o.id) == o.remaining && r.book.Of(o.side) == b.Of(o.side)
            else r == Matched([], b)
  {
    var contra := b.Of(o.side.Opposite());
    AcceptedFillOrKill(b, o);
    if Accepts(b, o) {
      AddCrossing(b, o);
      OtherIds(b, o);
      WalkConserves(Flatten(contra), o, o.id);
      WalkKeepsTerms(Flatten(contra), o);
    }
  }

  lemma {:induction false} OtherIds(b: Book, o: Order)
    requires !HasId(Orders(b), o.id)
    ensures forall k :: 0 <= k < |Flatten(b.Of(o.side.Opposite()))| ==> Flatten(b.Of(o.side.Opposite()))[k].id != o.id
  {
    var bids, asks := Flatten(b.bids), Flatten(b.asks);
    forall k | 0 <= k < |bids|
      ensures bids[k].id != o.id
    {
      assert Orders(b)[k] == bids[k];
    }
    forall k | 0 <= k < |asks|
      ensures asks[k].id != o.id
    {
      assert Orders(b)[|bids| + k] == asks[k];
    }
  }

  lemma {:induction false} AcceptedConserves(b: Book, o: Order, id: nat)
    requires Wf(b) && !Crossed(b) && PassiveBook(b) && Accepts(b, o)
    ensures var r := AddOrder(b, o);
            var w := Walk(Flatten(b.Of(o.side.Opposite())), o);
            && Traded(r.trades, o.id) + w.order.remaining == o.remaining
            && (forall k :: 0 <= k < |r.trades| ==>
                  (if o.side == Buy then r.trades[k].bid else r.trades[k].ask).id == o.id)
            && (id != o.id ==> Remaining(Orders(b), id) == Remaining(Orders(r.book), id) + Traded(r.trades, id))
  {
    AcceptedIsWalk(b, o);
    OtherIds(b, o);
    var own, contra := Flatten(b.Of(o.side)), Flatten(b.Of(o.side.Opposite()));
    var w := Walk(contra, o);
    WalkConserves(contra, o, id);
    WalkKeepsTerms(contra, o);
    var r := AddOrder(b, o);
    RemainingConcat(Flatten(b.bids), Flatten(b.asks), id);
    RemainingConcat(Flatten(r.book.bids), Flatten(r.book.asks), id);
    RemainingInsert(own, w.order, id);
  }

  /** Adding any order conserves quantity: every other order trades what it loses, and the trades of
      an order with a new id plus what the walk leaves of it are what it came in with, unless it was
      to be filled or killed and nothing happened. */
  lemma {:induction false} AddOrderConserves(b: Book, o: Order, id: nat)
    requires Wf(b) && !Crossed(b) && PassiveBook(b)
    ensures var r := AddOrder(b, o);
            var w := Walk(Flatten(b.Of(o.side.Opposite())), o);
            && (id != o.id ==> Remaining(Orders(b), id) == Remaining(Orders(r.book), id) + Traded(r.trades, id))
            && (forall k :: 0 <= k < |r.trades| ==>
                  (if o.side == Buy then r.trades[k].bid else r.trades[k].ask).id == o.id)
            && (!HasId(Orders(b), o.id) && (o.kind == FillOrKill ==> w.filled) ==>
                  Traded(r.trades, o.id) + w.order.remaining == o.remaining)
  {
    if Accepts(b, o) {
      AcceptedConserves(b, o, id);
    } else if !HasId(Orders(b), o.id) && o.kind == FillOrKill {
      AcceptedFillOrKill(b, o);
    } else {
      FlattenFirst(b.Of(o.side.Opposite()), o.side.Opposite());
    }
  }

  lemma RemainingInsert(f: seq<Order>, o: Order, id: nat)
    ensures Remaining(InsertFlat(f, o), id) == Remaining(f, id) + (if o.id == id then o.remaining else 0)
  {
    if f == [] || Better(o.side, o.price, f[0].price) {
      assert ([o] + f)[1..] == f;
    } else {
      RemainingInsert(f[1..], o, id);
      assert ([f[0]] + InsertFlat(f[1..], o))[1..] == InsertFlat(f[1..], o);
    }
  }

  // ----- Operations that never match

  ghost predicate AllWorse(levels: seq<Level>, s: Side, price: int) {
    forall i :: 0 <= i < |levels| ==> Better(s, price, levels[i].price)
  }

  lemma {:induction false} ConsKeepsSide(l: Level, levels: seq<Level>, s: Side)
    requires LevelWf(l, s) && SideWf(levels, s) && AllWorse(levels, s, l.price)
    ensures SideWf([l] + levels, s)
  {
    InsertKeepsSide(levels, s, 0, l);
    assert levels[..0] + [l] + levels[0..] == [l] + levels;
  }

  lemma WithoutIdSelects(orders: seq<Order>, id: nat)
    ensures forall k :: 0 <= k < |WithoutId(orders, id)| ==> WithoutId(orders, id)[k] in orders
  {
  }

  /** Removing an id keeps a side sorted, non-empty level by level and below any bound above it. */
  lemma {:induction false} DropIdKeepsSide(levels: seq<Level>, s: Side, id: nat, bound: int)
    requires SideWf(levels, s) && AllWorse(levels, s, bound)
    ensures SideWf(DropId(levels, id), s) && AllWorse(DropId(levels, id), s, bound)
    ensures Passive(levels) ==> Passive(DropId(levels, id))
  {
    if levels != [] {
      var head, rest := levels[0], levels[1..];
      assert LevelWf(head, s);
      DropIdKeepsSide(rest, s, id, head.price);
      WithoutIdSelects(head.orders, id);
      var l := Level(head.price, WithoutId(head.orders, id));
      if l.orders != [] {
        ConsKeepsSide(l, DropId(rest, id), s);
      }
    }
  }

  lemma {:induction false} DropPriceKeepsSide(levels: seq<Level>, s: Side, price: int, bound: int)
    requires SideWf(levels, s) && AllWorse(levels, s, bound)
    ensures SideWf(DropPrice(levels, price), s) && AllWorse(DropPrice(levels, price), s, bound)
    ensures Passive(levels) ==> Passive(DropPrice(levels, price))
  {
    if levels != [] {
      var head, rest := levels[0], levels[1..];
      assert LevelWf(head, s);
      DropPriceKeepsSide(rest, s, price, head.price);
      if head.price != price {
        ConsKeepsSide(head, DropPrice(rest, price), s);
      }
    }
  }

  /** A price ahead of every level of the side. */
  function AheadOf(levels: seq<Level>, s: Side): int {
    if levels == [] then 0 else if s == Buy then levels[0].price + 1 else levels[0].price - 1
  }

  lemma {:induction false} CancelKeepsBook(b: Book, id: nat)
    requires Wf(b)
    ensures Wf(Cancel(b, id))
    ensures !Crossed(b) ==> !Crossed(Cancel(b, id))
    ensures PassiveBook(b) ==> PassiveBook(Cancel(b, id))
  {
    DropIdKeepsSide(b.bids, Buy, id, AheadOf(b.bids, Buy));
    DropIdKeepsSide(b.asks, Sell, id, AheadOf(b.asks, Sell));
  }

  lemma {:induction false} WithoutNone(orders: seq<Order>)
    ensures WithoutIds(orders, {}) == orders
  {
    if orders != [] {
      WithoutNone(orders[1..]);
    }
  }

  lemma {:induction false} DropNone(levels: seq<Level>)
    requires forall l :: 0 <= l < |levels| ==> levels[l].orders != []
    ensures DropIds(levels, {}) == levels
  {
    if levels != [] {
      WithoutNone(levels[0].orders);
      DropNone(levels[1..]);
    }
  }

  lemma {:induction false} CancelNone(b: Book)
    requires Wf(b)
    ensures CancelAll(b, {}) == b
  {
    DropNone(b.bids);
    DropNone(b.asks);
  }

  lemma {:induction false} WithoutOneMore(orders: seq<Order>, ids: set<nat>, id: nat)
    ensures WithoutId(WithoutIds(orders, ids), id) == WithoutIds(orders, ids + {id})
  {
    if orders != [] {
      WithoutOneMore(orders[1..], ids, id);
      var rest := WithoutIds(orders[1..], ids);
      assert [] + rest == rest && ([orders[0]] + rest)[1..] == rest;
    }
  }

  lemma {:induction false} DropOneMore(levels: seq<Level>, ids: set<nat>, id: nat)
    ensures DropId(DropIds(levels, ids), id) == DropIds(levels, ids + {id})
  {
    if levels != [] {
      var orders, rest := WithoutIds(levels[0].orders, ids), DropIds(levels[1..], ids);
      WithoutOneMore(levels[0].orders, ids, id);
      DropOneMore(levels[1..], ids, id);
      assert [] + rest == rest && ([Level(levels[0].price, orders)] + rest)[1..] == rest;
    }
  }

  /** Cancelling one after the other, in any order, cancels them all. */
  lemma {:induction false} CancelOneMore(b: Book, ids: set<nat>, id: nat)
    ensures Cancel(CancelAll(b, ids), id) == CancelAll(b, ids + {id})
  {
    DropOneMore(b.bids, ids, id);
    DropOneMore(b.asks, ids, id);
  }

  /** Resting without matching leaves the book uncrossed exactly when the order could not match. */
  lemma {:induction false} RestUncrossedIff(b: Book, o: Order)
    requires Wf(b) && !Crossed(b)
    ensures !Crossed(b.With(o.side, Rest(b.Of(o.side), o))) <==> !CanMatch(b, o.side, o.price)
  {
    if CanMatch(b, o.side, o.price) {
      RestAtFront(b.Of(o.side), b.Of(o.side.Opposite()), o);
    } else {
      RestKeepsUncrossed(b, o);
    }
  }

  /** Modifying a resting order never matches it, so an uncrossed book stays uncrossed exactly when
      the new price does not reach the opposite side. */
  lemma {:induction false} ReplaceUncrossedIff(b: Book, o: Order)
    requires Wf(b) && !Crossed(b)
    ensures !Crossed(Replace(b, o)) <==> !CanMatch(Cancel(b, o.id), o.side, o.price)
  {
    CancelKeepsBook(b, o.id);
    RestUncrossedIff(Cancel(b, o.id), o);
  }

  /** A depth update never matches either: it leaves the book uncrossed exactly when it empties the
      level or quotes a price that does not reach the opposite side. */
  lemma {:induction false} L2UpdateUncrossedIff(b: Book, s: Side, price: int, qty: nat, freshId: nat)
    requires Wf(b) && !Crossed(b)
    ensures !Crossed(L2Update(b, s, price, qty, freshId)) <==> qty == 0 || !CanMatch(b, s, price)
  {
    var levels := DropPrice(b.Of(s), price);
    DropPriceKeepsSide(b.Of(s), s, price, AheadOf(b.Of(s), s));
    var b' := b.With(s, levels);
    assert Wf(b') && !Crossed(b');
    if qty > 0 {
      RestUncrossedIff(b', Order(GoodTillCancel, freshId, s, price, qty, qty));
    }
  }
}
