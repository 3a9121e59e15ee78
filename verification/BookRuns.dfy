/** Whole runs of the book: any sequence of its operations from the empty book. */
module BookRuns {
  import opened PriceTimeBook
  import opened BookTheorems

  datatype Op =
    | Add(order: Order)
    | Remove(id: nat)
    | Modify(id: nat, price: int, qty: nat)
    | Swap(id: nat, side: Side, price: int, qty: nat)
    | Quote(side: Side, price: int, qty: nat, freshId: nat)
    | Snapshot(bids: seq<(int, nat)>, asks: seq<(int, nat)>, firstId: nat)
    | Clear

  /** The book, the trades so far, and every order ever placed in the book as it was when placed. */
  datatype State = State(book: Book, trades: seq<Trade>, placed: seq<Order>)

  function Find(f: seq<Order>, id: nat): Order
    requires HasId(f, id)
  {
    if f[0].id == id then f[0] else Find(f[1..], id)
  }

  /** The synthetic orders of the rows of a snapshot. */
  function RowOrders(s: Side, rows: seq<(int, nat)>, firstId: nat): seq<Order>
    decreases rows
  {
    if rows == [] then []
    else if rows[0].1 == 0 then RowOrders(s, rows[1..], firstId)
    else [Order(GoodTillCancel, firstId, s, rows[0].0, rows[0].1, rows[0].1)] + RowOrders(s, rows[1..], firstId + 1)
  }

  function AddStep(st: State, o: Order): State {
    var r := AddOrder(st.book, o);
    State(r.book, st.trades + r.trades, if Accepts(st.book, o) then st.placed + [o] else st.placed)
  }

  function RemoveStep(st: State, id: nat): State {
    st.(book := Cancel(st.book, id))
  }

  function Step(st: State, op: Op): State {
    match op
    case Add(o) => AddStep(st, o)
    case Remove(id) => RemoveStep(st, id)
    case Modify(id, price, qty) =>
      if HasId(Orders(st.book), id) then
        var was := Find(Orders(st.book), id);
        var o := Order(was.kind, id, was.side, price, qty, qty);
        st.(book := Replace(st.book, o), placed := st.placed + [o])
      else st
    case Swap(id, side, price, qty) =>
      if HasId(Orders(st.book), id) then
        AddStep(RemoveStep(st, id), Order(Find(Orders(st.book), id).kind, id, side, price, qty, qty))
      else st
    case Quote(s, price, qty, freshId) =>
      st.(book := L2Update(st.book, s, price, qty, freshId),
          placed := if qty == 0 then st.placed else st.placed + [Order(GoodTillCancel, freshId, s, price, qty, qty)])
    case Snapshot(bids, asks, firstId) =>
      var next := firstId + RowCount(bids);
      st.(book := Book(SnapshotSide([], Buy, bids, firstId), SnapshotSide([], Sell, asks, next)),
          placed := st.placed + (RowOrders(Buy, bids, firstId) + RowOrders(Sell, asks, next)))
    case Clear => st.(book := Book([], []))
  }

  function Run(st: State, ops: seq<Op>): State
    decreases ops
  {
    if ops == [] then st else Run(Step(st, ops[0]), ops[1..])
  }

  const Start: State := State(Book([], []), [], [])

  // ----- No order trades more than was placed under its id

  /** What an id traded and still has in the book was placed under it. */
  ghost predicate Covered(st: State) {
    && Wf(st.book)
    && forall id :: Traded(st.trades, id) + Remaining(Orders(st.book), id) <= Remaining(st.placed, id)
  }

  lemma {:induction false} TradedConcat(ts: seq<Trade>, us: seq<Trade>, id: nat)
    ensures Traded(ts + us, id) == Traded(ts, id) + Traded(us, id)
  {
    if ts == [] {
      assert ts + us == us;
    } else {
      assert (ts + us)[1..] == ts[1..] + us;
      TradedConcat(ts[1..], us, id);
    }
  }

  lemma {:induction false} RemainingOne(o: Order, id: nat)
    ensures Remaining([o], id) == if o.id == id then o.remaining else 0
  {
    assert [o][1..] == [];
  }

  lemma {:induction false} RemainingWithout(orders: seq<Order>, id: nat, x: nat)
    ensures Remaining(WithoutId(orders, id), x) == if x == id then 0 else Remaining(orders, x)
  {
    if orders != [] {
      RemainingWithout(orders[1..], id, x);
      RemainingOne(orders[0], x);
      RemainingConcat(if orders[0].id == id then [] else [orders[0]], WithoutId(orders[1..], id), x);
      assert Remaining([], x) == 0;
    }
  }

  lemma {:induction false} RemainingCons(l: Level, levels: seq<Level>, x: nat)
    ensures Remaining(Flatten([l] + levels), x) == Remaining(l.orders, x) + Remaining(Flatten(levels), x)
  {
    FlattenHead(l, levels);
    RemainingConcat(l.orders, Flatten(levels), x);
  }

  lemma {:induction false} RemainingDropId(levels: seq<Level>, id: nat, x: nat)
    ensures Remaining(Flatten(DropId(levels, id)), x) <= Remaining(Flatten(levels), x)
  {
    if levels != [] {
      var l, rest := levels[0], levels[1..];
      assert levels == [l] + rest;
      RemainingCons(l, rest, x);
      RemainingDropId(rest, id, x);
      RemainingWithout(l.orders, id, x);
      RemainingCons(Level(l.price, WithoutId(l.orders, id)), DropId(rest, id), x);
      assert [] + DropId(rest, id) == DropId(rest, id);
    }
  }

  lemma {:induction false} RemainingDropPrice(levels: seq<Level>, price: int, x: nat)
    ensures Remaining(Flatten(DropPrice(levels, price)), x) <= Remaining(Flatten(levels), x)
  {
    if levels != [] {
      var l, rest := levels[0], levels[1..];
      assert levels == [l] + rest;
      RemainingCons(l, rest, x);
      RemainingDropPrice(rest, price, x);
      RemainingCons(l, DropPrice(rest, price), x);
      assert [] + DropPrice(rest, price) == DropPrice(rest, price);
    }
  }

  lemma {:induction false} RemainingDropAggressive(levels: seq<Level>, x: nat)
    ensures Remaining(Flatten(DropAggressive(levels)), x) <= Remaining(Flatten(levels), x)
  {
    if levels != [] && levels[0].orders != [] && Aggressive(levels[0].orders[0]) {
      var l, rest := levels[0], levels[1..];
      assert levels == [l] + rest;
      RemainingCons(l, rest, x);
      if |l.orders| == 1 {
        assert RemoveAt(levels, 0, 0) == rest;
      } else {
        assert l.orders[..0] + l.orders[1..] == l.orders[1..];
        assert RemoveAt(levels, 0, 0) == [Level(l.price, l.orders[1..])] + rest;
        RemainingCons(Level(l.price, l.orders[1..]), rest, x);
      }
    }
  }

  lemma {:induction false} RemainingSides(s: Side, b: Book, x: nat)
    ensures Remaining(Orders(b), x) == Remaining(Flatten(b.Of(s)), x) + Remaining(Flatten(b.Of(s.Opposite())), x)
  {
    RemainingConcat(Flatten(b.bids), Flatten(b.asks), x);
  }

  lemma {:induction false} RemainingRest(b: Book, o: Order, x: nat)
    requires Wf(b)
    ensures Remaining(Orders(b.With(o.side, Rest(b.Of(o.side), o))), x)
            == Remaining(Orders(b), x) + if o.id == x then o.remaining else 0
  {
    FlattenRest(b.Of(o.side), o);
    RemainingInsert(Flatten(b.Of(o.side)), o, x);
    RemainingSides(o.side, b, x);
    RemainingSides(o.side, b.With(o.side, Rest(b.Of(o.side), o)), x);
  }

  lemma {:induction false} DropAggressiveKeepsWf(b: Book)
    requires Wf(b)
    ensures Wf(Book(DropAggressive(b.bids), DropAggressive(b.asks)))
  {
    if b.bids != [] {
      assert LevelWf(b.bids[0], Buy);
      RemoveKeepsSide(b.bids, Buy, 0, 0);
    }
    if b.asks != [] {
      assert LevelWf(b.asks[0], Sell);
      RemoveKeepsSide(b.asks, Sell, 0, 0);
    }
  }

  /** Adding to any well-formed book, crossed or not. */
  lemma {:induction false} AddCovers(b: Book, o: Order, x: nat)
    requires Wf(b) && Accepts(b, o)
    ensures var r := AddOrder(b, o);
            && Wf(r.book)
            && Traded(r.trades, x) + Remaining(Orders(r.book), x)
               <= Remaining(Orders(b), x) + if o.id == x then o.remaining else 0
  {
    RestKeepsSide(b.Of(o.side), o);
    var b1 := b.With(o.side, Rest(b.Of(o.side), o));
    RemainingRest(b, o, x);
    MatchUncrosses(b1);
    MatchConserves(b1, x);
    var m := Match(b1).book;
    DropAggressiveKeepsWf(m);
    RemainingDropAggressive(m.bids, x);
    RemainingDropAggressive(m.asks, x);
    RemainingSides(Buy, m, x);
    RemainingSides(Buy, Book(DropAggressive(m.bids), DropAggressive(m.asks)), x);
  }

  lemma {:induction false} CancelCovers(b: Book, id: nat, x: nat)
    ensures Remaining(Orders(Cancel(b, id)), x) <= Remaining(Orders(b), x)
  {
    RemainingDropId(b.bids, id, x);
    RemainingDropId(b.asks, id, x);
    RemainingSides(Buy, b, x);
    RemainingSides(Buy, Cancel(b, id), x);
  }

  lemma {:induction false} QuoteCovers(b: Book, s: Side, price: int, qty: nat, freshId: nat, x: nat)
    requires Wf(b)
    ensures Wf(L2Update(b, s, price, qty, freshId))
    ensures Remaining(Orders(L2Update(b, s, price, qty, freshId)), x)
            <= Remaining(Orders(b), x) + if freshId == x then qty else 0
  {
    var levels := DropPrice(b.Of(s), price);
    DropPriceKeepsSide(b.Of(s), s, price, AheadOf(b.Of(s), s));
    var b1 := b.With(s, levels);
    RemainingDropPrice(b.Of(s), price, x);
    RemainingSides(s, b, x);
    RemainingSides(s, b1, x);
    if qty > 0 {
      var o := Order(GoodTillCancel, freshId, s, price, qty, qty);
      RestKeepsSide(levels, o);
      RemainingRest(b1, o, x);
    }
  }

  lemma {:induction false} SnapshotCovers(levels: seq<Level>, s: Side, rows: seq<(int, nat)>, firstId: nat, x: nat)
    requires SideWf(levels, s)
    ensures SideWf(SnapshotSide(levels, s, rows, firstId), s)
    ensures Remaining(Flatten(SnapshotSide(levels, s, rows, firstId)), x)
            == Remaining(Flatten(levels), x) + Remaining(RowOrders(s, rows, firstId), x)
    decreases rows
  {
    if rows != [] {
      if rows[0].1 == 0 {
        SnapshotCovers(levels, s, rows[1..], firstId, x);
      } else {
        var o := Order(GoodTillCancel, firstId, s, rows[0].0, rows[0].1, rows[0].1);
        RestKeepsSide(levels, o);
        FlattenRest(levels, o);
        RemainingInsert(Flatten(levels), o, x);
        SnapshotCovers(Rest(levels, o), s, rows[1..], firstId + 1, x);
        RemainingConcat([o], RowOrders(s, rows[1..], firstId + 1), x);
        RemainingOne(o, x);
      }
    }
  }

  lemma {:induction false} AddStepCovers(st: State, o: Order)
    requires Covered(st)
    ensures Covered(AddStep(st, o))
  {
    var st' := AddStep(st, o);
    if Accepts(st.book, o) {
      AddCovers(st.book, o, 0);
    }
    forall x
      ensures Traded(st'.trades, x) + Remaining(Orders(st'.book), x) <= Remaining(st'.placed, x)
    {
      TradedConcat(st.trades, AddOrder(st.book, o).trades, x);
      if Accepts(st.book, o) {
        AddCovers(st.book, o, x);
        RemainingConcat(st.placed, [o], x);
        RemainingOne(o, x);
      }
    }
  }

  lemma {:induction false} RemoveStepCovers(st: State, id: nat)
    requires Covered(st)
    ensures Covered(RemoveStep(st, id))
  {
    CancelKeepsBook(st.book, id);
    forall x
      ensures Traded(st.trades, x) + Remaining(Orders(Cancel(st.book, id)), x) <= Remaining(st.placed, x)
    {
      CancelCovers(st.book, id, x);
    }
  }

  lemma {:induction false} QuoteStepCovers(st: State, s: Side, price: int, qty: nat, freshId: nat)
    requires Covered(st)
    ensures Covered(Step(st, Quote(s, price, qty, freshId)))
  {
    var st' := Step(st, Quote(s, price, qty, freshId));
    QuoteCovers(st.book, s, price, qty, freshId, 0);
    forall x
      ensures Traded(st'.trades, x) + Remaining(Orders(st'.book), x) <= Remaining(st'.placed, x)
    {
      QuoteCovers(st.book, s, price, qty, freshId, x);
      var o := Order(GoodTillCancel, freshId, s, price, qty, qty);
      RemainingConcat(st.placed, [o], x);
      RemainingOne(o, x);
    }
  }

  lemma {:induction false} SnapshotBookCovers(bids: seq<(int, nat)>, asks: seq<(int, nat)>, firstId: nat, next: nat,
                                              x: nat)
    ensures var b := Book(SnapshotSide([], Buy, bids, firstId), SnapshotSide([], Sell, asks, next));
      Wf(b) && Remaining(Orders(b), x) == Remaining(RowOrders(Buy, bids, firstId) + RowOrders(Sell, asks, next), x)
  {
    SnapshotCovers([], Buy, bids, firstId, x);
    SnapshotCovers([], Sell, asks, next, x);
    RemainingSides(Buy, Book(SnapshotSide([], Buy, bids, firstId), SnapshotSide([], Sell, asks, next)), x);
    RemainingConcat(RowOrders(Buy, bids, firstId), RowOrders(Sell, asks, next), x);
  }

  lemma {:induction false} SnapshotStepCovers(st: State, bids: seq<(int, nat)>, asks: seq<(int, nat)>, firstId: nat)
    requires Covered(st)
    ensures Covered(Step(st, Snapshot(bids, asks, firstId)))
  {
    var st', next := Step(st, Snapshot(bids, asks, firstId)), firstId + RowCount(bids);
    SnapshotBookCovers(bids, asks, firstId, next, 0);
    forall x
      ensures Traded(st'.trades, x) + Remaining(Orders(st'.book), x) <= Remaining(st'.placed, x)
    {
      SnapshotBookCovers(bids, asks, firstId, next, x);
      RemainingConcat(st.placed, RowOrders(Buy, bids, firstId) + RowOrders(Sell, asks, next), x);
    }
  }

  lemma {:induction false} StepCovers(st: State, op: Op)
    requires Covered(st)
    ensures Covered(Step(st, op))
  {
    match op
    case Add(o) => AddStepCovers(st, o);
    case Remove(id) => RemoveStepCovers(st, id);
    case Modify(id, price, qty) =>
      if HasId(Orders(st.book), id) {
        ModifyCovers(st, id, price, qty);
      }
    case Swap(id, side, price, qty) =>
      if HasId(Orders(st.book), id) {
        RemoveStepCovers(st, id);
        AddStepCovers(RemoveStep(st, id), Order(Find(Orders(st.book), id).kind, id, side, price, qty, qty));
      }
    case Quote(s, price, qty, freshId) => QuoteStepCovers(st, s, price, qty, freshId);
    case Snapshot(bids, asks, firstId) => SnapshotStepCovers(st, bids, asks, firstId);
    case Clear =>
  }

  lemma {:induction false} ModifyCovers(st: State, id: nat, price: int, qty: nat)
    requires Covered(st) && HasId(Orders(st.book), id)
    ensures Covered(Step(st, Modify(id, price, qty)))
  {
    var st' := Step(st, Modify(id, price, qty));
    var was := Find(Orders(st.book), id);
    var o := Order(was.kind, id, was.side, price, qty, qty);
    CancelKeepsBook(st.book, id);
    var b1 := Cancel(st.book, id);
    RestKeepsSide(b1.Of(o.side), o);
    forall x
      ensures Traded(st'.trades, x) + Remaining(Orders(st'.book), x) <= Remaining(st'.placed, x)
    {
      CancelCovers(st.book, id, x);
      RemainingRest(b1, o, x);
      RemainingConcat(st.placed, [o], x);
      RemainingOne(o, x);
    }
  }

  /** Over every run of every operation, crossed books included, the quantity traded under an id
      never exceeds the quantity placed under it. */
  lemma {:induction false} RunNeverOvertrades(ops: seq<Op>, id: nat)
    ensures Traded(Run(Start, ops).trades, id) <= Remaining(Run(Start, ops).placed, id)
  {
    RunCovers(Start, ops);
  }

  lemma {:induction false} RunCovers(st: State, ops: seq<Op>)
    requires Covered(st)
    ensures Covered(Run(st, ops))
    decreases ops
  {
    if ops != [] {
      StepCovers(st, ops[0]);
      RunCovers(Step(st, ops[0]), ops[1..]);
    }
  }

  // ----- Runs of additions and cancellations

  ghost predicate Orderly(b: Book) {
    Wf(b) && !Crossed(b) && PassiveBook(b)
  }

  /** Over every run of additions and cancellations the book stays uncrossed and nothing that must
      not rest ever rests, so every addition of the run is the walk of `AddOrderIsWalk`. */
  lemma {:induction false} RunStaysOrderly(st: State, ops: seq<Op>)
    requires Orderly(st.book) && forall k :: 0 <= k < |ops| ==> ops[k].Add? || ops[k].Remove?
    ensures Orderly(Run(st, ops).book)
    decreases ops
  {
    if ops != [] {
      match ops[0] {
        case Add(o) => AddOrderKeepsBook(st.book, o);
        case Remove(id) => CancelKeepsBook(st.book, id);
      }
      RunStaysOrderly(Step(st, ops[0]), ops[1..]);
    }
  }
}
