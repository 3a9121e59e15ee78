/** The limit order book as a value: two sides, each a list of price levels from best to
    worst, each level a first-in-first-out list of orders. The functions below say what
    every public operation of the book does to that value; the pointer structure that
    implements them is in module OrderBook.

    Prices are raw tick counts, quantities natural numbers.
 */
module PriceTimeBook {

  datatype Side = Buy | Sell
  {
    function Opposite(): Side {
      if this == Buy then Sell else Buy
    }
  }

  datatype OrderType = GoodTillCancel | FillOrKill | ImmediateOrCancel

  datatype Order = Order(kind: OrderType, id: nat, side: Side, price: int, initial: nat, remaining: nat)

  datatype TradeInfo = TradeInfo(id: nat, price: int, qty: nat)

  datatype Trade = Trade(bid: TradeInfo, ask: TradeInfo)

  datatype Level = Level(price: int, orders: seq<Order>)

  datatype Book = Book(bids: seq<Level>, asks: seq<Level>)
  {
    function Of(s: Side): seq<Level> {
      if s == Buy then bids else asks
    }

    function With(s: Side, levels: seq<Level>): Book {
      if s == Buy then Book(levels, asks) else Book(bids, levels)
    }
  }

  /** The book whose side `s` is `own` and whose other side is `contra`. */
  function MakeBook(s: Side, own: seq<Level>, contra: seq<Level>): Book {
    if s == Buy then Book(own, contra) else Book(contra, own)
  }

  // ----- Prices

  /** Price `p` ranks strictly ahead of `q` among resting orders of side `s`. */
  predicate Better(s: Side, p: int, q: int) {
    if s == Buy then p > q else p < q
  }

  /** An order of side `s` limited at `p` can trade with a resting price `q`. */
  predicate Crosses(s: Side, p: int, q: int) {
    if s == Buy then p >= q else p <= q
  }

  predicate Crossed(b: Book) {
    b.bids != [] && b.asks != [] && b.bids[0].price >= b.asks[0].price
  }

  function Min(a: nat, b: nat): nat {
    if a <= b then a else b
  }

  // ----- Well-formed sides

  ghost predicate LevelWf(l: Level, s: Side) {
    && l.orders != []
    && forall k :: 0 <= k < |l.orders| ==> l.orders[k].side == s && l.orders[k].price == l.price
  }

  ghost predicate Sorted(levels: seq<Level>, s: Side) {
    forall i, j :: 0 <= i < j < |levels| ==> Better(s, levels[i].price, levels[j].price)
  }

  ghost predicate SideWf(levels: seq<Level>, s: Side) {
    && Sorted(levels, s)
    && forall i :: 0 <= i < |levels| ==> LevelWf(levels[i], s)
  }

  ghost predicate Wf(b: Book) {
    SideWf(b.bids, Buy) && SideWf(b.asks, Sell)
  }

  /** All orders of a side in (price, arrival) order. */
  function Flatten(levels: seq<Level>): seq<Order> {
    if levels == [] then [] else levels[0].orders + Flatten(levels[1..])
  }

  /** All orders of the book. */
  function Orders(b: Book): seq<Order> {
    Flatten(b.bids) + Flatten(b.asks)
  }

  predicate HasId(f: seq<Order>, id: nat) {
    exists k :: 0 <= k < |f| && f[k].id == id
  }

  // ----- Inserting and removing

  /** Index of the first level that does not rank strictly ahead of `price`. */
  function Slot(levels: seq<Level>, s: Side, price: int): (i: nat)
    ensures i <= |levels|
  {
    if levels == [] || !Better(s, levels[0].price, price) then 0
    else 1 + Slot(levels[1..], s, price)
  }

  /** Join the back of the queue at the order's price, opening the level when it is missing. */
  function Rest(levels: seq<Level>, o: Order): seq<Level> {
    var i := Slot(levels, o.side, o.price);
    if i < |levels| && levels[i].price == o.price then
      levels[i := Level(o.price, levels[i].orders + [o])]
    else
      levels[..i] + [Level(o.price, [o])] + levels[i..]
  }

  /** Remove the `k`-th order of level `l`; an emptied level disappears. */
  function RemoveAt(levels: seq<Level>, l: nat, k: nat): seq<Level>
    requires l < |levels| && k < |levels[l].orders|
  {
    var orders := levels[l].orders;
    if |orders| == 1 then levels[..l] + levels[l + 1..]
    else levels[l := Level(levels[l].price, orders[..k] + orders[k + 1..])]
  }

  /** Lower the remaining quantity of the first order of a side by `q`. */
  function FillFront(levels: seq<Level>, q: nat): seq<Level>
    requires levels != [] && levels[0].orders != [] && q <= levels[0].orders[0].remaining
  {
    var orders := levels[0].orders;
    levels[0 := levels[0].(orders := orders[0 := orders[0].(remaining := orders[0].remaining - q)])]
  }

  /** Fill the first order of a side by `q` and drop it once it is filled. */
  function ReduceFront(levels: seq<Level>, q: nat): seq<Level>
    requires levels != [] && levels[0].orders != [] && q <= levels[0].orders[0].remaining
  {
    var f := FillFront(levels, q);
    if f[0].orders[0].remaining == 0 then RemoveAt(f, 0, 0) else f
  }

  // ----- Matching

  function Count(levels: seq<Level>): nat {
    if levels == [] then 0 else |levels[0].orders| + Count(levels[1..])
  }

  lemma CountReduce(levels: seq<Level>, q: nat)
    requires levels != [] && levels[0].orders != [] && q <= levels[0].orders[0].remaining
    ensures Count(ReduceFront(levels, q)) == Count(levels) - (if levels[0].orders[0].remaining == q then 1 else 0)
  {
    var f := FillFront(levels, q);
    assert f[1..] == levels[1..];
    if f[0].orders[0].remaining == 0 {
      var r := RemoveAt(f, 0, 0);
      if |levels[0].orders| == 1 {
        assert r == levels[1..];
      } else {
        assert r[1..] == levels[1..];
      }
    }
  }

  /** The trade between the two front orders of a crossed book. */
  function FrontTrade(b: Book): Trade
    requires Crossed(b) && b.bids[0].orders != [] && b.asks[0].orders != []
  {
    var bid, ask := b.bids[0].orders[0], b.asks[0].orders[0];
    var q := Min(bid.remaining, ask.remaining);
    Trade(TradeInfo(bid.id, bid.price, q), TradeInfo(ask.id, ask.price, q))
  }

  /** One pass of the matching loop. */
  function MatchOnce(b: Book): (r: Book)
    requires Crossed(b) && b.bids[0].orders != [] && b.asks[0].orders != []
    ensures Count(r.bids) + Count(r.asks) < Count(b.bids) + Count(b.asks)
  {
    var q := FrontTrade(b).bid.qty;
    CountReduce(b.bids, q);
    CountReduce(b.asks, q);
    Book(ReduceFront(b.bids, q), ReduceFront(b.asks, q))
  }

  datatype Matched = Matched(trades: seq<Trade>, book: Book)

  /** The matching loop: trade the two fronts until the book no longer crosses. */
  function Match(b: Book): Matched
    decreases Count(b.bids) + Count(b.asks)
  {
    if !Crossed(b) || b.bids[0].orders == [] || b.asks[0].orders == [] then Matched([], b)
    else
      var r := Match(MatchOnce(b));
      Matched([FrontTrade(b)] + r.trades, r.book)
  }

  predicate Aggressive(o: Order) {
    o.kind == FillOrKill || o.kind == ImmediateOrCancel
  }

  /** Cancel the front order of a side when it must not rest. */
  function DropAggressive(levels: seq<Level>): seq<Level> {
    if levels != [] && levels[0].orders != [] && Aggressive(levels[0].orders[0])
    then RemoveAt(levels, 0, 0)
    else levels
  }

  /** Matching followed by the cancellation of aggressive front orders. */
  function MatchAndDrop(b: Book): Matched {
    var m := Match(b);
    Matched(m.trades, Book(DropAggressive(m.book.bids), DropAggressive(m.book.asks)))
  }

  // ----- Public operations

  predicate CanMatch(b: Book, s: Side, price: int) {
    var contra := b.Of(s.Opposite());
    contra != [] && Crosses(s, price, contra[0].price)
  }

  function Total(orders: seq<Order>): nat {
    if orders == [] then 0 else orders[0].remaining + Total(orders[1..])
  }

  /** Quantity resting at the levels an order of side `s` limited at `price` can reach. */
  function Available(levels: seq<Level>, s: Side, price: int): nat {
    if levels == [] then 0
    else (if Crosses(s, price, levels[0].price) then Total(levels[0].orders) else 0)
         + Available(levels[1..], s, price)
  }

  /** The order passes the checks that precede its insertion. */
  predicate Accepts(b: Book, o: Order) {
    && !HasId(Orders(b), o.id)
    && (o.kind == FillOrKill ==>
          CanMatch(b, o.side, o.price)
          && o.remaining <= Available(b.Of(o.side.Opposite()), o.side, o.price))
    && (o.kind == ImmediateOrCancel ==> CanMatch(b, o.side, o.price))
  }

  function AddOrder(b: Book, o: Order): Matched {
    if Accepts(b, o) then MatchAndDrop(b.With(o.side, Rest(b.Of(o.side), o)))
    else Matched([], b)
  }

  function WithoutId(orders: seq<Order>, id: nat): seq<Order> {
    if orders == [] then []
    else (if orders[0].id == id then [] else [orders[0]]) + WithoutId(orders[1..], id)
  }

  function DropId(levels: seq<Level>, id: nat): seq<Level> {
    if levels == [] then []
    else
      var orders := WithoutId(levels[0].orders, id);
      (if orders == [] then [] else [Level(levels[0].price, orders)]) + DropId(levels[1..], id)
  }

  function Cancel(b: Book, id: nat): Book {
    Book(DropId(b.bids, id), DropId(b.asks, id))
  }

  function WithoutIds(orders: seq<Order>, ids: set<nat>): seq<Order> {
    if orders == [] then []
    else (if orders[0].id in ids then [] else [orders[0]]) + WithoutIds(orders[1..], ids)
  }

  function DropIds(levels: seq<Level>, ids: set<nat>): seq<Level> {
    if levels == [] then []
    else
      var orders := WithoutIds(levels[0].orders, ids);
      (if orders == [] then [] else [Level(levels[0].price, orders)]) + DropIds(levels[1..], ids)
  }

  /** Every order with an id in `ids` is cancelled at once. */
  function CancelAll(b: Book, ids: set<nat>): Book {
    Book(DropIds(b.bids, ids), DropIds(b.asks, ids))
  }

  /** Replace a resting order: cancel it, then rest `o` without matching. */
  function Replace(b: Book, o: Order): Book {
    var c := Cancel(b, o.id);
    c.With(o.side, Rest(c.Of(o.side), o))
  }

  function DropPrice(levels: seq<Level>, price: int): seq<Level> {
    if levels == [] then []
    else (if levels[0].price == price then [] else [levels[0]]) + DropPrice(levels[1..], price)
  }

  /** Replace a level by one synthetic order, or by nothing when the new size is zero. */
  function L2Update(b: Book, s: Side, price: int, qty: nat, freshId: nat): Book {
    var levels := DropPrice(b.Of(s), price);
    if qty == 0 then b.With(s, levels)
    else b.With(s, Rest(levels, Order(GoodTillCancel, freshId, s, price, qty, qty)))
  }

  /** Published depth: price and total of every level that holds quantity. */
  function Depth(levels: seq<Level>): seq<(int, nat)> {
    if levels == [] then []
    else
      var total := Total(levels[0].orders);
      (if total > 0 then [(levels[0].price, total)] else []) + Depth(levels[1..])
  }

  /** Rows with a quantity. */
  function RowCount(rows: seq<(int, nat)>): nat {
    if rows == [] then 0 else (if rows[0].1 == 0 then 0 else 1) + RowCount(rows[1..])
  }

  /** A side with one synthetic order more for every row that has a quantity. */
  function SnapshotSide(levels: seq<Level>, s: Side, rows: seq<(int, nat)>, firstId: nat): seq<Level>
    decreases rows
  {
    if rows == [] then levels
    else if rows[0].1 == 0 then SnapshotSide(levels, s, rows[1..], firstId)
    else SnapshotSide(Rest(levels, Order(GoodTillCancel, firstId, s, rows[0].0, rows[0].1, rows[0].1)), s, rows[1..],
                      firstId + 1)
  }

  lemma {:induction false} SnapshotNext(levels: seq<Level>, s: Side, rows: seq<(int, nat)>, id: nat, i: nat)
    requires i < |rows|
    ensures RowCount(rows[i..]) == RowCount(rows[i + 1..]) + if rows[i].1 == 0 then 0 else 1
    ensures SnapshotSide(levels, s, rows[i..], id) ==
            if rows[i].1 == 0 then SnapshotSide(levels, s, rows[i + 1..], id)
            else SnapshotSide(Rest(levels, Order(GoodTillCancel, id, s, rows[i].0, rows[i].1, rows[i].1)), s,
                              rows[i + 1..], id + 1)
  {
    assert rows[i..][1..] == rows[i + 1..];
  }
}
