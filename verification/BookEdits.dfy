/** What cancels, amendments and depth feeds leave in the book, order by order and size by size. */
module BookEdits {
  import opened PriceTimeBook
  import opened BookTheorems

  // ----- Cancelling

  lemma {:induction false} WithoutIdConcat(f: seq<Order>, g: seq<Order>, id: nat)
    ensures WithoutId(f + g, id) == WithoutId(f, id) + WithoutId(g, id)
  {
    if f == [] {
      assert f + g == g;
    } else {
      assert (f + g)[1..] == f[1..] + g;
      WithoutIdConcat(f[1..], g, id);
    }
  }

  lemma {:induction false} DropIdIsFlat(levels: seq<Level>, id: nat)
    ensures Flatten(DropId(levels, id)) == WithoutId(Flatten(levels), id)
  {
    if levels != [] {
      var l, rest := levels[0], levels[1..];
      DropIdIsFlat(rest, id);
      WithoutIdConcat(l.orders, Flatten(rest), id);
      var orders := WithoutId(l.orders, id);
      if orders == [] {
        assert [] + DropId(rest, id) == DropId(rest, id);
      } else {
        FlattenHead(Level(l.price, orders), DropId(rest, id));
      }
    }
  }

  /** What is left of a side without an id: every order with another id, in the same order. */
  predicate IsWithout(f: seq<Order>, g: seq<Order>, id: nat) {
    if f == [] then g == []
    else if f[0].id == id then IsWithout(f[1..], g, id)
    else g != [] && g[0] == f[0] && IsWithout(f[1..], g[1..], id)
  }

  lemma {:induction false} WithoutIdIs(f: seq<Order>, id: nat)
    ensures IsWithout(f, WithoutId(f, id), id) && !HasId(WithoutId(f, id), id)
  {
    if f != [] {
      WithoutIdIs(f[1..], id);
      var rest := WithoutId(f[1..], id);
      if f[0].id == id {
        assert [] + rest == rest;
      } else {
        assert ([f[0]] + rest)[1..] == rest;
        HasNoId(f[0], rest, id);
      }
    }
  }

  lemma {:induction false} HasNoId(o: Order, f: seq<Order>, id: nat)
    requires o.id != id && !HasId(f, id)
    ensures !HasId([o] + f, id)
  {
    forall k | 0 <= k < |[o] + f|
      ensures ([o] + f)[k].id != id
    {
      if k > 0 {
        assert ([o] + f)[k] == f[k - 1];
      }
    }
  }

  /** A cancel takes out the orders with its id from both sides and leaves the others in their order. */
  lemma {:induction false} CancelIs(b: Book, id: nat)
    ensures IsWithout(Flatten(b.bids), Flatten(Cancel(b, id).bids), id)
    ensures IsWithout(Flatten(b.asks), Flatten(Cancel(b, id).asks), id)
    ensures !HasId(Flatten(Cancel(b, id).bids), id) && !HasId(Flatten(Cancel(b, id).asks), id)
  {
    DropIdIsFlat(b.bids, id);
    DropIdIsFlat(b.asks, id);
    WithoutIdIs(Flatten(b.bids), id);
    WithoutIdIs(Flatten(b.asks), id);
  }

  /** An amended order loses its place: it is as if cancelled and then inserted by (price, arrival); the
      other side only loses the id. */
  lemma {:induction false} ReplaceIs(b: Book, o: Order)
    requires Wf(b)
    ensures var c := Cancel(b, o.id);
      && Flatten(Replace(b, o).Of(o.side)) == InsertFlat(Flatten(c.Of(o.side)), o)
      && Replace(b, o).Of(o.side.Opposite()) == c.Of(o.side.Opposite())
  {
    CancelKeepsBook(b, o.id);
    FlattenRest(Cancel(b, o.id).Of(o.side), o);
  }

  // ----- Sizes by price

  /** What rests at a price. */
  function SizeAt(f: seq<Order>, price: int): nat {
    if f == [] then 0 else (if f[0].price == price then f[0].remaining else 0) + SizeAt(f[1..], price)
  }

  /** What published depth shows at a price. */
  function ShownAt(depth: seq<(int, nat)>, price: int): nat {
    if depth == [] then 0 else (if depth[0].0 == price then depth[0].1 else 0) + ShownAt(depth[1..], price)
  }

  lemma {:induction false} SizeConcat(f: seq<Order>, g: seq<Order>, price: int)
    ensures SizeAt(f + g, price) == SizeAt(f, price) + SizeAt(g, price)
  {
    if f == [] {
      assert f + g == g;
    } else {
      assert (f + g)[1..] == f[1..] + g;
      SizeConcat(f[1..], g, price);
    }
  }

  lemma {:induction false} LevelSize(orders: seq<Order>, own: int, price: int)
    requires forall k :: 0 <= k < |orders| ==> orders[k].price == own
    ensures SizeAt(orders, price) == if price == own then Total(orders) else 0
  {
    if orders != [] {
      LevelSize(orders[1..], own, price);
    }
  }

  /** Published depth shows at every price what rests there. */
  lemma {:induction false} DepthShows(levels: seq<Level>, s: Side, price: int)
    requires SideWf(levels, s)
    ensures ShownAt(Depth(levels), price) == SizeAt(Flatten(levels), price)
  {
    if levels != [] {
      var l, rest := levels[0], levels[1..];
      assert LevelWf(l, s);
      DepthShows(rest, s, price);
      SizeConcat(l.orders, Flatten(rest), price);
      LevelSize(l.orders, l.price, price);
      if Total(l.orders) > 0 {
        assert ([(l.price, Total(l.orders))] + Depth(rest))[1..] == Depth(rest);
      } else {
        assert [] + Depth(rest) == Depth(rest);
      }
    }
  }

  /** It shows no empty levels. */
  lemma {:induction false} DepthShowsSomething(levels: seq<Level>)
    ensures forall i :: 0 <= i < |Depth(levels)| ==> Depth(levels)[i].1 > 0
  {
    if levels != [] {
      DepthShowsSomething(levels[1..]);
    }
  }

  lemma {:induction false} InsertSize(f: seq<Order>, o: Order, price: int)
    ensures SizeAt(InsertFlat(f, o), price) == SizeAt(f, price) + if o.price == price then o.remaining else 0
  {
    if f == [] || Better(o.side, o.price, f[0].price) {
      assert ([o] + f)[1..] == f;
    } else {
      InsertSize(f[1..], o, price);
      assert ([f[0]] + InsertFlat(f[1..], o))[1..] == InsertFlat(f[1..], o);
    }
  }

  lemma {:induction false} DropPriceSize(levels: seq<Level>, s: Side, own: int, price: int)
    requires SideWf(levels, s)
    ensures SizeAt(Flatten(DropPrice(levels, own)), price) ==
            if price == own then 0 else SizeAt(Flatten(levels), price)
  {
    if levels != [] {
      var l, rest := levels[0], levels[1..];
      assert LevelWf(l, s);
      DropPriceSize(rest, s, own, price);
      SizeConcat(l.orders, Flatten(rest), price);
      LevelSize(l.orders, l.price, price);
      if l.price == own {
        assert [] + DropPrice(rest, own) == DropPrice(rest, own);
      } else {
        FlattenHead(l, DropPrice(rest, own));
        SizeConcat(l.orders, Flatten(DropPrice(rest, own)), price);
      }
    }
  }

  /** After a depth update the book shows the new size at that price, and at every other price and on the
      other side what it showed before. */
  lemma {:induction false} L2UpdateShows(b: Book, s: Side, own: int, qty: nat, freshId: nat, price: int)
    requires Wf(b)
    ensures var b' := L2Update(b, s, own, qty, freshId);
      && ShownAt(Depth(b'.Of(s)), price) == (if price == own then qty else ShownAt(Depth(b.Of(s)), price))
      && b'.Of(s.Opposite()) == b.Of(s.Opposite()) && Wf(b')
  {
    var levels := DropPrice(b.Of(s), own);
    var o := Order(GoodTillCancel, freshId, s, own, qty, qty);
    DropPriceKeepsSide(b.Of(s), s, own, AheadOf(b.Of(s), s));
    DropPriceSize(b.Of(s), s, own, price);
    DepthShows(b.Of(s), s, price);
    DepthShows(levels, s, price);
    RestKeepsSide(levels, o);
    FlattenRest(levels, o);
    InsertSize(Flatten(levels), o, price);
    DepthShows(Rest(levels, o), s, price);
  }

  /** A snapshot shows at every price the sum of its rows. */
  lemma {:induction false} SnapshotShows(levels: seq<Level>, s: Side, rows: seq<(int, nat)>, id: nat, price: int)
    requires SideWf(levels, s)
    ensures var after := SnapshotSide(levels, s, rows, id);
      SideWf(after, s) && ShownAt(Depth(after), price) == ShownAt(Depth(levels), price) + ShownAt(rows, price)
    decreases |rows|
  {
    if rows != [] {
      if rows[0].1 == 0 {
        SnapshotShows(levels, s, rows[1..], id, price);
      } else {
        var o := Order(GoodTillCancel, id, s, rows[0].0, rows[0].1, rows[0].1);
        RestKeepsSide(levels, o);
        FlattenRest(levels, o);
        InsertSize(Flatten(levels), o, price);
        DepthShows(levels, s, price);
        DepthShows(Rest(levels, o), s, price);
        SnapshotShows(Rest(levels, o), s, rows[1..], id + 1, price);
      }
    }
  }
}
