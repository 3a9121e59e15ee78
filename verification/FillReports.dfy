/** What a submission to the paper adapter does, on values: the price it enters the book with, the
    trades it makes and the fills it queues. From an uncrossed book the fills are one for every resting
    order that the submission reaches, in (price, arrival) order and at that order's price.
 */
module FillReports {
  import opened PriceTimeBook
  import opened BookTheorems
  import opened FillAccounts
  import opened WalkedVwap

  datatype EventKind = AtMarket | Limit | Stop | StopLimit

  datatype TimeInForce = Ioc | Fok | Gtc | Day

  type Size = x: real | x >= 0.0

  datatype OrderEvent = OrderEvent(id: nat, symbol: string, side: Side, kind: EventKind, tif: TimeInForce, qty: Size,
                                   price: real)

  datatype Resting = Resting(obj: nat, symbol: string, side: Side)

  /** Rounding half away from zero. */
  function Round(x: real): int {
    if x >= 0.0 then (x + 0.5).Floor else -((0.5 - x).Floor)
  }

  function BookKind(tif: TimeInForce): OrderType {
    match tif
    case Fok => FillOrKill
    case Ioc => ImmediateOrCancel
    case Gtc => GoodTillCancel
    case Day => GoodTillCancel
  }

  /** The limit a market order enters the book with, from a reference price. */
  function CrossingPrice(side: Side, ref: real, aggression: real): int {
    Round((if side == Buy then ref * aggression else ref * (2.0 - aggression)) * PRICE_SCALE)
  }

  /** The price an order enters the book with, given the opposite side's depth; a market order's
      reference is the walked average where that is wanted and exists, else the modelled price. */
  function EntryPrice(o: OrderEvent, size: real, depth: seq<(int, nat)>, walk: bool, aggression: real,
                      impactPrice: real): int {
    var vwap := Vwap(depth, size);
    if o.kind != AtMarket then Round(o.price * PRICE_SCALE)
    else CrossingPrice(o.side, if walk && vwap > 0.0 then vwap else impactPrice, aggression)
  }

  // ----- What a trade does to the tracked orders and the fill queue

  datatype Track = Track(resting: map<nat, Resting>, fills: seq<Fill>)

  predicate Done(objs: seq<Order>, p: nat) {
    p < |objs| && objs[p].remaining == 0
  }

  /** A trade leg of a tracked order: a fill at its own price, and tracking stops once it is filled. */
  function Record(objs: seq<Order>, t: Track, leg: TradeInfo): Track {
    if leg.id !in t.resting then t
    else
      Track(if Done(objs, t.resting[leg.id].obj) then t.resting - {leg.id} else t.resting,
            t.fills + [Fill(leg.id, leg.qty as real, leg.price)])
  }

  function RecordTrades(objs: seq<Order>, t: Track, trs: seq<Trade>): Track {
    if trs == [] then t
    else
      var last := trs[|trs| - 1];
      Record(objs, Record(objs, RecordTrades(objs, t, trs[..|trs| - 1]), last.bid), last.ask)
  }

  function Faded(units: real, fade: real): real {
    units * (1.0 - fade)
  }

  /** A leg of the submitted order itself: a fill at the counterparty's price, less the fade. */
  function OwnFill(t: Track, id: nat, leg: TradeInfo, price: int, fade: real): Track {
    var units := if fade > 0.0 then Faded(leg.qty as real, fade) else leg.qty as real;
    if leg.id != id || (fade > 0.0 && units <= 0.0) then t
    else t.(fills := t.fills + [Fill(id, units, price)])
  }

  /** One trade of the submission of `id`: first the counterparty, then the order itself. */
  function Report(objs: seq<Order>, t: Track, tr: Trade, id: nat, fade: real): Track {
    var own := if tr.bid.id == id then tr.bid else tr.ask;
    var counter := if tr.bid.id == id then tr.ask else tr.bid;
    OwnFill(if counter.id != id then Record(objs, t, counter) else t, id, own, counter.price, fade)
  }

  function ReportTrades(objs: seq<Order>, t: Track, trs: seq<Trade>, id: nat, fade: real): Track {
    if trs == [] then t
    else Report(objs, ReportTrades(objs, t, trs[..|trs| - 1], id, fade), trs[|trs| - 1], id, fade)
  }

  /** Tracking of a new order: a good-till-cancel remainder rests. */
  function Placed(resting: map<nat, Resting>, o: OrderEvent, p: nat, objs: seq<Order>): map<nat, Resting> {
    if BookKind(o.tif) == GoodTillCancel && p < |objs| && objs[p].remaining > 0
    then resting[o.id := Resting(p, o.symbol, o.side)]
    else resting
  }

  /** Orders the adapter ignores: stop orders, and limit orders that lose the draw. */
  predicate Dropped(o: OrderEvent, modelled: bool, mid: real, sample: real, prob: real) {
    o.kind == Stop || o.kind == StopLimit || (modelled && o.kind == Limit && mid > 0.0 && sample > prob)
  }

  /** The observable state around a submission. */
  datatype Inner = Inner(book: Book, objects: nat, resting: map<nat, Resting>, fills: seq<Fill>,
                         submitted: map<nat, nat>)

  /** The effect of a submission: the matcher's book, the remainder tracked, the trades reported. */
  ghost predicate Entered(x: Inner, o: OrderEvent, price: int, units: int, fade: real, y: Inner, objs: seq<Order>) {
    && units >= 0 && o.id !in x.submitted && y.submitted == x.submitted[o.id := units]
    && var r := AddOrder(x.book, Order(BookKind(o.tif), o.id, o.side, price, units, units));
       && y.book == r.book
       && x.objects < |objs| && objs[x.objects].remaining + Traded(r.trades, o.id) == units
       && Track(y.resting, y.fills) ==
          ReportTrades(objs, Track(Placed(x.resting, o, x.objects, objs), x.fills), r.trades, o.id, fade)
  }

  lemma {:induction false} FadeShrinks(units: real, fade: real)
    requires fade > 0.0 && units >= 0.0
    ensures Faded(units, fade) <= units
  {
    assert units * fade >= 0.0;
  }

  // ----- The plain account of a submission

  /** What an order for `want` units limited at `limit` gets from the orders of the other side, taken
      from the first on: price and quantity, order by order. */
  function Deals(contra: seq<Order>, buy: bool, limit: int, want: nat): seq<(int, nat)> {
    if contra == [] || (if buy then contra[0].price > limit else contra[0].price < limit) then []
    else if want <= contra[0].remaining then [(contra[0].price, want)]
    else [(contra[0].price, contra[0].remaining)] + Deals(contra[1..], buy, limit, want - contra[0].remaining)
  }

  function Bought(deals: seq<(int, nat)>): nat {
    if deals == [] then 0 else deals[0].1 + Bought(deals[1..])
  }

  /** The trades of an order of `o`'s terms with the orders of `contra`, as `deals` says. */
  ghost predicate AreDeals(ts: seq<Trade>, contra: seq<Order>, o: Order, deals: seq<(int, nat)>) {
    && |ts| == |deals| <= |contra|
    && forall i :: 0 <= i < |ts| ==> deals[i].0 == contra[i].price && ts[i] == TradeOf(o, contra[i], deals[i].1)
  }

  lemma {:induction false} AreDealsMore(ts: seq<Trade>, contra: seq<Order>, o: Order, o': Order, q: nat,
                                        deals: seq<(int, nat)>)
    requires contra != [] && o' == o.(remaining := o'.remaining) && AreDeals(ts, contra[1..], o', deals)
    ensures AreDeals([TradeOf(o, contra[0], q)] + ts, contra, o, [(contra[0].price, q)] + deals)
  {
    var ts', deals' := [TradeOf(o, contra[0], q)] + ts, [(contra[0].price, q)] + deals;
    forall i | 0 <= i < |ts'|
      ensures deals'[i].0 == contra[i].price && ts'[i] == TradeOf(o, contra[i], deals'[i].1)
    {
      if i > 0 {
        assert ts'[i] == ts[i - 1] && deals'[i] == deals[i - 1] && contra[i] == contra[1..][i - 1];
      }
    }
  }

  /** The trades of the walk are the deals, and what they leave of the order is what it did not get. */
  lemma {:induction false} WalkDeals(contra: seq<Order>, o: Order)
    ensures var deals := Deals(contra, o.side == Buy, o.price, o.remaining);
      && AreDeals(Walk(contra, o).trades, contra, o, deals)
      && Bought(deals) + Walk(contra, o).order.remaining == o.remaining
      && (Walk(contra, o).filled ==> Bought(deals) == o.remaining)
      && (!Walk(contra, o).filled && o.remaining > 0 ==> Bought(deals) < o.remaining)
  {
    if contra != [] && Crosses(o.side, o.price, contra[0].price) {
      var q := Min(o.remaining, contra[0].remaining);
      var o' := o.(remaining := o.remaining - q);
      if o.remaining == q {
        AreDealsMore([], contra, o, o', q, []);
      } else {
        var rest := Deals(contra[1..], o.side == Buy, o.price, o'.remaining);
        WalkDeals(contra[1..], o');
        AreDealsMore(Walk(contra[1..], o').trades, contra, o, o', q, rest);
        assert ([(contra[0].price, q)] + rest)[1..] == rest;
      }
    }
  }

  /** The fills of one deal of order `id` with a resting order: first the resting order's in full, if it
      is tracked, and then `id`'s less the fade, both at the resting order's price. */
  function ReportsOf(resting: nat, deal: (int, nat), tracked: set<nat>, id: nat, fade: real): seq<Fill> {
    var (price, q) := deal;
    var kept := if fade > 0.0 then q as real - q as real * fade else q as real;
    (if resting in tracked then [Fill(resting, q as real, price)] else [])
    + (if fade > 0.0 && kept <= 0.0 then [] else [Fill(id, kept, price)])
  }

  /** The fills of all deals in their order. */
  function Reports(contra: seq<Order>, deals: seq<(int, nat)>, tracked: set<nat>, id: nat, fade: real): seq<Fill>
    requires |deals| <= |contra|
    decreases |deals|
  {
    if deals == [] then []
    else
      var k := |deals| - 1;
      Reports(contra, deals[..k], tracked, id, fade) + ReportsOf(contra[k].id, deals[k], tracked, id, fade)
  }

  ghost predicate DistinctIds(f: seq<Order>) {
    forall i, j :: 0 <= i < j < |f| ==> f[i].id != f[j].id
  }

  /** Tracking after `k` deals: the own id and every id whose order was not dealt with is as before. */
  ghost predicate Tracking(before: map<nat, Resting>, after: map<nat, Resting>, contra: seq<Order>, k: nat) {
    && k <= |contra|
    && (forall id :: id in after ==> id in before && after[id] == before[id])
    && (forall id :: id in before && !HasId(contra[..k], id) ==> id in after)
  }

  lemma {:induction false} FadedIs(q: real, fade: real)
    ensures Faded(q, fade) == q - q * fade
  {
  }

  lemma {:induction false} HasIdMore(f: seq<Order>, o: Order, id: nat)
    ensures HasId(f + [o], id) <==> HasId(f, id) || o.id == id
  {
    assert (f + [o])[|f|] == o;
    if HasId(f, id) {
      var i :| 0 <= i < |f| && f[i].id == id;
      assert (f + [o])[i].id == id;
    }
  }

  lemma {:induction false} RecordTracks(objs: seq<Order>, t: Track, contra: seq<Order>, k: nat, leg: TradeInfo,
                                        before: map<nat, Resting>)
    requires k < |contra| && contra[k].id == leg.id && DistinctIds(contra) && Tracking(before, t.resting, contra, k)
    ensures Tracking(before, Record(objs, t, leg).resting, contra, k + 1)
    ensures Record(objs, t, leg).fills ==
            t.fills + if leg.id in before then [Fill(leg.id, leg.qty as real, leg.price)] else []
  {
    assert !HasId(contra[..k], leg.id);
    assert contra[..k + 1] == contra[..k] + [contra[k]];
    forall id
      ensures HasId(contra[..k + 1], id) <==> HasId(contra[..k], id) || leg.id == id
    {
      HasIdMore(contra[..k], contra[k], id);
    }
  }

  lemma {:induction false} ReportOne(objs: seq<Order>, t: Track, contra: seq<Order>, k: nat, o: Order, q: nat,
                                     fade: real, before: map<nat, Resting>)
    requires k < |contra| && contra[k].id != o.id && DistinctIds(contra) && Tracking(before, t.resting, contra, k)
    ensures var t' := Report(objs, t, TradeOf(o, contra[k], q), o.id, fade);
      && Tracking(before, t'.resting, contra, k + 1)
      && t'.fills == t.fills + ReportsOf(contra[k].id, (contra[k].price, q), before.Keys, o.id, fade)
  {
    FadedIs(q as real, fade);
    RecordTracks(objs, t, contra, k, TradeInfo(contra[k].id, contra[k].price, q), before);
  }

  lemma {:induction false} JoinFills(a: seq<Fill>, b: seq<Fill>, c: seq<Fill>)
    ensures a + b + c == a + (b + c)
  {
  }

  /** The trades of a submission become exactly the reports of its deals. */
  lemma {:induction false} ReportDeals(objs: seq<Order>, t: Track, ts: seq<Trade>, contra: seq<Order>, o: Order,
                                       deals: seq<(int, nat)>, fade: real)
    requires AreDeals(ts, contra, o, deals) && DistinctIds(contra) && !HasId(contra, o.id)
    ensures var t' := ReportTrades(objs, t, ts, o.id, fade);
      && Tracking(t.resting, t'.resting, contra, |deals|)
      && t'.fills == t.fills + Reports(contra, deals, t.resting.Keys, o.id, fade)
    decreases |ts|
  {
    if ts == [] {
      assert t.fills + [] == t.fills;
    } else {
      var k := |ts| - 1;
      ReportDeals(objs, t, ts[..k], contra, o, deals[..k], fade);
      assert deals[k] == (contra[k].price, deals[k].1);
      ReportOne(objs, ReportTrades(objs, t, ts[..k], o.id, fade), contra, k, o, deals[k].1, fade, t.resting);
      JoinFills(t.fills, Reports(contra, deals[..k], t.resting.Keys, o.id, fade),
                ReportsOf(contra[k].id, deals[k], t.resting.Keys, o.id, fade));
    }
  }

  lemma {:induction false} ReportsSame(contra: seq<Order>, deals: seq<(int, nat)>, some: set<nat>, more: set<nat>,
                                       id: nat, fade: real)
    requires |deals| <= |contra| && !HasId(contra, id) && (more == some || more == some + {id})
    ensures Reports(contra, deals, some, id, fade) == Reports(contra, deals, more, id, fade)
    decreases |deals|
  {
    if deals != [] {
      var k := |deals| - 1;
      ReportsSame(contra, deals[..k], some, more, id, fade);
      assert contra[k].id != id;
    }
  }

  /** What a submission deals: a fill-or-kill order that would not get all it wants gets nothing. */
  function DealsOf(contra: seq<Order>, o: OrderEvent, price: int, units: nat): seq<(int, nat)> {
    var deals := Deals(contra, o.side == Buy, price, units);
    if o.tif == Fok && Bought(deals) < units then [] else deals
  }

  /** The whole effect of a submission on fills and tracking, in terms of the orders it found: one
      report for every deal, and the order is tracked if it may rest and did not get all it wanted. */
  ghost predicate Reported(x: Inner, o: OrderEvent, price: int, units: nat, fade: real, y: Inner) {
    var contra := Flatten(x.book.Of(o.side.Opposite()));
    var deals := DealsOf(contra, o, price, units);
    && |deals| <= |contra| && y.fills == x.fills + Reports(contra, deals, x.resting.Keys, o.id, fade)
    && (o.id in y.resting <==> (o.tif == Gtc || o.tif == Day) && Bought(deals) < units)
    && forall id :: id != o.id && !HasId(contra[..|deals|], id) ==> (id in y.resting <==> id in x.resting)
  }

  /** The effect of a submission from any book, and its account in plain terms from an orderly one. */
  ghost predicate Submitted(x: Inner, o: OrderEvent, price: int, units: int, fade: real, y: Inner, objs: seq<Order>) {
    && Entered(x, o, price, units, fade, y, objs)
    && (!Crossed(x.book) && PassiveBook(x.book) ==> Reported(x, o, price, units, fade, y))
  }

  /** The state of a book in which additions are walks, and from which an id is missing. */
  ghost predicate Orderly(b: Book, s: Side, id: nat) {
    && Wf(b) && !Crossed(b) && PassiveBook(b) && !HasId(Orders(b), id)
    && DistinctIds(Flatten(b.Of(s.Opposite())))
  }

  lemma {:induction false} NotOpposite(b: Book, s: Side, id: nat)
    requires !HasId(Orders(b), id)
    ensures !HasId(Flatten(b.Of(s.Opposite())), id)
  {
    OtherIds(b, Order(GoodTillCancel, id, s, 0, 0, 0));
  }

  /** The trades an addition makes are the deals of the submission. */
  lemma {:induction false} AdditionDeals(b: Book, o: OrderEvent, price: int, units: nat)
    requires Orderly(b, o.side, o.id)
    ensures var order := Order(BookKind(o.tif), o.id, o.side, price, units, units);
      var contra := Flatten(b.Of(o.side.Opposite()));
      var deals := DealsOf(contra, o, price, units);
      && AreDeals(AddOrder(b, order).trades, contra, order, deals)
      && Traded(AddOrder(b, order).trades, o.id) == Bought(deals)
  {
    var order := Order(BookKind(o.tif), o.id, o.side, price, units, units);
    var contra := Flatten(b.Of(o.side.Opposite()));
    AddOrderIsWalk(b, order);
    AddOrderConserves(b, order, o.id);
    WalkDeals(contra, order);
    if o.tif == Fok && !Walk(contra, order).filled {
      NothingDealt(contra, order);
    }
  }

  lemma {:induction false} NothingDealt(contra: seq<Order>, o: Order)
    requires !Walk(contra, o).filled
    ensures Bought(Deals(contra, o.side == Buy, o.price, o.remaining)) < o.remaining
         || Deals(contra, o.side == Buy, o.price, o.remaining) == []
  {
    WalkDeals(contra, o);
    WalkFilledIff(contra, o);
  }

  /** From an uncrossed book a submission reports exactly its deals. */
  lemma {:induction false} EnteredIsReported(x: Inner, o: OrderEvent, price: int, units: nat, fade: real, y: Inner,
                                             objs: seq<Order>)
    requires Entered(x, o, price, units, fade, y, objs)
    requires Orderly(x.book, o.side, o.id) && o.id !in x.resting
    ensures Reported(x, o, price, units, fade, y)
  {
    var order := Order(BookKind(o.tif), o.id, o.side, price, units, units);
    var contra := Flatten(x.book.Of(o.side.Opposite()));
    var deals := DealsOf(contra, o, price, units);
    var ts := AddOrder(x.book, order).trades;
    var before := Placed(x.resting, o, x.objects, objs);
    NotOpposite(x.book, o.side, o.id);
    AdditionDeals(x.book, o, price, units);
    ReportDeals(objs, Track(before, x.fills), ts, contra, order, deals, fade);
    ReportsSame(contra, deals, x.resting.Keys, before.Keys, o.id, fade);
    TrackedAfter(x.resting, before, y.resting, contra, |deals|, o.id);
  }

  lemma {:induction false} TrackedAfter(was: map<nat, Resting>, before: map<nat, Resting>, after: map<nat, Resting>,
                                        contra: seq<Order>, k: nat, own: nat)
    requires Tracking(before, after, contra, k) && !HasId(contra, own)
    requires before.Keys == was.Keys || before.Keys == was.Keys + {own}
    ensures own in after <==> own in before
    ensures forall id :: id != own && !HasId(contra[..k], id) ==> (id in after <==> id in was)
  {
    forall id
      ensures id in before <==> id in was || (id == own && own in before)
    {
      assert id in before <==> id in before.Keys;
      assert id in was <==> id in was.Keys;
    }
  }

  // ----- What a submission pays

  /** What the fills of an id cost. */
  function Spent(fs: seq<Fill>, id: nat): real {
    if fs == [] then 0.0
    else
      var last := fs[|fs| - 1];
      Spent(fs[..|fs| - 1], id) + if last.id == id then Paid(last.units, last.price) else 0.0
  }

  function DealsCost(deals: seq<(int, nat)>): real {
    if deals == [] then 0.0
    else DealsCost(deals[..|deals| - 1]) + CostAt(deals[|deals| - 1].1, deals[|deals| - 1].0)
  }

  lemma {:induction false} SpentAppend(fs: seq<Fill>, f: Fill, id: nat)
    ensures Spent(fs + [f], id) == Spent(fs, id) + if f.id == id then Paid(f.units, f.price) else 0.0
  {
    assert (fs + [f])[..|fs|] == fs;
  }

  lemma {:induction false} BoughtSplit(deals: seq<(int, nat)>)
    requires deals != []
    ensures Bought(deals) == Bought(deals[..|deals| - 1]) + deals[|deals| - 1].1
  {
    var k := |deals| - 1;
    if k == 0 {
      assert deals[1..] == [];
    } else {
      BoughtSplit(deals[1..]);
      assert deals[1..][..k - 1] == deals[..k][1..];
    }
  }

  /** Without a fade the fills of the submission add up to what was dealt, in quantity and in cost. */
  lemma {:induction false} ReportsCost(fs: seq<Fill>, contra: seq<Order>, deals: seq<(int, nat)>, tracked: set<nat>,
                                       id: nat, fade: real)
    requires |deals| <= |contra| && !HasId(contra, id) && fade <= 0.0
    ensures Spent(fs + Reports(contra, deals, tracked, id, fade), id) == Spent(fs, id) + DealsCost(deals)
    ensures Filled(fs + Reports(contra, deals, tracked, id, fade), id) == Filled(fs, id) + Bought(deals) as real
    decreases |deals|
  {
    if deals == [] {
      assert fs + [] == fs;
    } else {
      var k := |deals| - 1;
      var rs := fs + Reports(contra, deals[..k], tracked, id, fade);
      ReportsCost(fs, contra, deals[..k], tracked, id, fade);
      BoughtSplit(deals);
      DealCost(rs, contra[k].id, deals[k], tracked, id, fade);
      JoinFills(fs, Reports(contra, deals[..k], tracked, id, fade),
                ReportsOf(contra[k].id, deals[k], tracked, id, fade));
    }
  }

  lemma {:induction false} DealCost(fs: seq<Fill>, resting: nat, deal: (int, nat), tracked: set<nat>, id: nat,
                                    fade: real)
    requires resting != id && fade <= 0.0
    ensures var fs' := fs + ReportsOf(resting, deal, tracked, id, fade);
      Spent(fs', id) == Spent(fs, id) + CostAt(deal.1, deal.0) && Filled(fs', id) == Filled(fs, id) + deal.1 as real
  {
    var own, maker := Fill(id, deal.1 as real, deal.0), Fill(resting, deal.1 as real, deal.0);
    if resting in tracked {
      SpentAppend(fs, maker, id);
      FilledAppend(fs, maker, id);
      SpentAppend(fs + [maker], own, id);
      FilledAppend(fs + [maker], own, id);
      assert fs + ([maker] + [own]) == fs + [maker] + [own];
    } else {
      SpentAppend(fs, own, id);
      FilledAppend(fs, own, id);
      assert [] + [own] == [own];
    }
  }

  lemma {:induction false} DealsCostFirst(deals: seq<(int, nat)>)
    requires deals != []
    ensures DealsCost(deals) == CostAt(deals[0].1, deals[0].0) + DealsCost(deals[1..])
  {
    var k := |deals| - 1;
    if k == 0 {
      assert deals[1..] == [] && deals[..0] == [];
    } else {
      DealsCostFirst(deals[..k]);
      assert deals[1..][..k - 1] == deals[..k][1..];
    }
  }

  /** An order that gets all it wants pays what its quantity costs from the front of the other side. */
  lemma {:induction false} DealsCostFlat(contra: seq<Order>, buy: bool, limit: int, want: nat)
    requires Bought(Deals(contra, buy, limit, want)) == want
    ensures DealsCost(Deals(contra, buy, limit, want)) == FlatCost(contra, want)
  {
    var deals := Deals(contra, buy, limit, want);
    if deals != [] {
      DealsCostFirst(deals);
      FlatCostStep(contra, want);
      if want <= contra[0].remaining {
        assert deals[1..] == [] && FlatCost(contra[1..], 0) == 0.0;
      } else {
        var rest := Deals(contra[1..], buy, limit, want - contra[0].remaining);
        assert deals[1..] == rest;
        DealsCostFlat(contra[1..], buy, limit, want - contra[0].remaining);
      }
    }
  }

  lemma {:induction false} DealsCostEstimate(levels: seq<Level>, o: Order)
    requires SideWf(levels, o.side.Opposite()) && o.remaining > 0
    requires Bought(Deals(Flatten(levels), o.side == Buy, o.price, o.remaining)) == o.remaining
    ensures DealsCost(Deals(Flatten(levels), o.side == Buy, o.price, o.remaining))
         == DepthCost(Depth(levels), o.remaining as real)
    ensures DepthTotal(Depth(levels)) >= o.remaining
  {
    DealsCostFlat(Flatten(levels), o.side == Buy, o.price, o.remaining);
    DepthIsFlat(levels, o.side.Opposite(), o.remaining);
    WalkDeals(Flatten(levels), o);
    FilledCost(levels, o);
  }

  lemma {:induction false} VwapIs(depth: seq<(int, nat)>, n: nat, cost: real)
    requires n > 0 && DepthTotal(depth) >= n && DepthCost(depth, n as real) == cost
    ensures Vwap(depth, n as real) == cost / n as real
  {
  }

  /** The estimate carried over to the fills a caller polls: without a fade, a submission that gets all
      it wants is filled for that quantity, at the average price that was estimated just before. */
  lemma {:induction false} FillsCostEstimate(x: Inner, o: OrderEvent, price: int, units: nat, fade: real, y: Inner)
    requires Reported(x, o, price, units, fade, y) && Orderly(x.book, o.side, o.id) && fade <= 0.0
    requires units > 0 && Bought(DealsOf(Flatten(x.book.Of(o.side.Opposite())), o, price, units)) == units
    ensures Filled(y.fills, o.id) == Filled(x.fills, o.id) + units as real
    ensures Vwap(Depth(x.book.Of(o.side.Opposite())), units as real)
         == (Spent(y.fills, o.id) - Spent(x.fills, o.id)) / units as real
  {
    var contra := Flatten(x.book.Of(o.side.Opposite()));
    NotOpposite(x.book, o.side, o.id);
    ReportsCost(x.fills, contra, DealsOf(contra, o, price, units), x.resting.Keys, o.id, fade);
    DealsCostEstimate(x.book.Of(o.side.Opposite()), Order(BookKind(o.tif), o.id, o.side, price, units, units));
    VwapIs(Depth(x.book.Of(o.side.Opposite())), units, Spent(y.fills, o.id) - Spent(x.fills, o.id));
  }

  // ----- Prices and sizes on entry

  /** Stop orders never enter the book, market orders always do, and a limit order does unless there are a
      fill model and a mid price and the draw is above the model's probability. */
  lemma {:induction false} DroppedByKind(o: OrderEvent, modelled: bool, mid: real, sample: real, prob: real)
    ensures match o.kind
            case AtMarket => !Dropped(o, modelled, mid, sample, prob)
            case Limit => !Dropped(o, modelled, mid, sample, prob) <==> (!modelled || mid <= 0.0 || sample <= prob)
            case _ => Dropped(o, modelled, mid, sample, prob)
  {
  }

  /** Rounding goes to the nearest whole number, and away from zero from the middle. */
  lemma {:induction false} RoundIsNearest(x: real)
    ensures x - 0.5 <= Round(x) as real <= x + 0.5
    ensures x >= 0.0 ==> Round(x) as real > x - 0.5
    ensures x <= 0.0 ==> Round(x) as real < x + 0.5
  {
  }

  lemma {:induction false} RoundMonotone(x: real, y: real)
    requires x <= y
    ensures Round(x) <= Round(y)
  {
  }

  /** The reference price moved by the excess of the aggression over one, up for buys and down for sells. */
  function Aimed(side: Side, ref: real, aggression: real): real {
    if side == Buy then ref + ref * (aggression - 1.0) else ref - ref * (aggression - 1.0)
  }

  lemma {:induction false} AimedIs(side: Side, ref: real, aggression: real)
    ensures Aimed(side, ref, aggression) == if side == Buy then ref * aggression else ref * (2.0 - aggression)
  {
  }

  lemma {:induction false} CrossingNear(side: Side, ref: real, aggression: real)
    ensures var price, exact := CrossingPrice(side, ref, aggression) as real, Aimed(side, ref, aggression);
      exact * PRICE_SCALE - 0.5 <= price <= exact * PRICE_SCALE + 0.5
  {
    AimedIs(side, ref, aggression);
    RoundIsNearest(Aimed(side, ref, aggression) * PRICE_SCALE);
  }

  /** A limit order enters at its own price to the nearest tick. A market order enters at its reference
      price times the aggression, mirrored for sells, to the nearest tick. */
  lemma {:induction false} EntryPriceNear(o: OrderEvent, size: real, depth: seq<(int, nat)>, walk: bool,
                                          aggression: real, impactPrice: real)
    ensures var price := EntryPrice(o, size, depth, walk, aggression, impactPrice) as real;
      var ref := if walk && Vwap(depth, size) > 0.0 then Vwap(depth, size) else impactPrice;
      var exact := if o.kind != AtMarket then o.price else Aimed(o.side, ref, aggression);
      exact * PRICE_SCALE - 0.5 <= price <= exact * PRICE_SCALE + 0.5
  {
    RoundIsNearest(o.price * PRICE_SCALE);
    CrossingNear(o.side, if walk && Vwap(depth, size) > 0.0 then Vwap(depth, size) else impactPrice, aggression);
  }

  /** With an aggression of at least one, a market order's limit is at or beyond its reference. */
  lemma {:induction false} AggressionCrosses(side: Side, ref: real, aggression: real)
    requires ref >= 0.0 && aggression >= 1.0
    ensures Crosses(side, CrossingPrice(side, ref, aggression), Round(ref * PRICE_SCALE))
  {
    assert ref * (aggression - 1.0) >= 0.0;
    assert ref * aggression == ref + ref * (aggression - 1.0);
    assert ref * (2.0 - aggression) == ref - ref * (aggression - 1.0);
    if side == Buy {
      RoundMonotone(ref * PRICE_SCALE, ref * aggression * PRICE_SCALE);
    } else {
      RoundMonotone(ref * (2.0 - aggression) * PRICE_SCALE, ref * PRICE_SCALE);
    }
  }

  // ----- Trades of other parties

  /** The legs one after the other. */
  function RecordLegs(objs: seq<Order>, t: Track, legs: seq<TradeInfo>): Track {
    if legs == [] then t
    else Record(objs, RecordLegs(objs, t, legs[..|legs| - 1]), legs[|legs| - 1])
  }

  lemma {:induction false} RecordTradesIsLegs(objs: seq<Order>, t: Track, trs: seq<Trade>)
    ensures RecordTrades(objs, t, trs) == RecordLegs(objs, t, Legs(trs))
  {
    if trs != [] {
      var rest, last := trs[..|trs| - 1], trs[|trs| - 1];
      var legs := Legs(rest);
      RecordTradesIsLegs(objs, t, rest);
      LegsConcat(rest, [last]);
      assert rest + [last] == trs && Legs([last]) == [last.bid, last.ask];
      assert Legs(trs) == legs + [last.bid] + [last.ask];
      assert Legs(trs)[..|legs| + 1] == legs + [last.bid] && (legs + [last.bid])[..|legs|] == legs;
    }
  }

  /** One fill for every leg of a tracked order, in full and at the order's own price. */
  function MakerFills(legs: seq<TradeInfo>, tracked: set<nat>): seq<Fill> {
    if legs == [] then []
    else
      var last := legs[|legs| - 1];
      MakerFills(legs[..|legs| - 1], tracked)
      + if last.id in tracked then [Fill(last.id, last.qty as real, last.price)] else []
  }

  /** Two legs of one tracked order whose object reads as filled. */
  ghost predicate TwoLegsOfDone(objs: seq<Order>, t: Track, legs: seq<TradeInfo>) {
    exists i, j :: 0 <= i < j < |legs| && legs[i].id == legs[j].id && SettledId(objs, t, legs[j].id)
  }

  predicate SettledId(objs: seq<Order>, t: Track, id: nat) {
    id in t.resting && Done(objs, t.resting[id].obj)
  }

  predicate HasLeg(legs: seq<TradeInfo>, id: nat) {
    exists i :: 0 <= i < |legs| && legs[i].id == id
  }

  lemma {:induction false} HasLegMore(legs: seq<TradeInfo>, leg: TradeInfo, id: nat)
    ensures HasLeg(legs + [leg], id) <==> HasLeg(legs, id) || leg.id == id
  {
    assert (legs + [leg])[|legs|] == leg;
    if HasLeg(legs, id) {
      var i :| 0 <= i < |legs| && legs[i].id == id;
      assert (legs + [leg])[i].id == id;
    }
  }

  lemma {:induction false} TwoLegsMore(objs: seq<Order>, t: Track, legs: seq<TradeInfo>, leg: TradeInfo)
    ensures TwoLegsOfDone(objs, t, legs + [leg]) <==>
            TwoLegsOfDone(objs, t, legs) || (HasLeg(legs, leg.id) && SettledId(objs, t, leg.id))
  {
    var all := legs + [leg];
    if TwoLegsOfDone(objs, t, legs) {
      var i, j :| 0 <= i < j < |legs| && legs[i].id == legs[j].id && SettledId(objs, t, legs[j].id);
      assert all[i] == legs[i] && all[j] == legs[j];
    } else if HasLeg(legs, leg.id) && SettledId(objs, t, leg.id) {
      var i :| 0 <= i < |legs| && legs[i].id == leg.id;
      assert all[i] == legs[i] && all[|legs|] == leg;
    }
    if TwoLegsOfDone(objs, t, all) {
      var i, j :| 0 <= i < j < |all| && all[i].id == all[j].id && SettledId(objs, t, all[j].id);
      assert all[i] == legs[i];
      if j < |legs| {
        assert all[j] == legs[j];
      }
    }
  }

  /** After a batch exactly the filled orders with a leg in it are no longer tracked, and fills are
      missing exactly for the further legs of such orders. */
  lemma {:induction false} LegsRecorded(objs: seq<Order>, t: Track, legs: seq<TradeInfo>)
    ensures var t' := RecordLegs(objs, t, legs);
      var all := t.fills + MakerFills(legs, t.resting.Keys);
      && (forall id :: id in t'.resting ==> id in t.resting && t'.resting[id] == t.resting[id])
      && (forall id :: id in t.resting ==> (id in t'.resting <==> !(SettledId(objs, t, id) && HasLeg(legs, id))))
      && (if TwoLegsOfDone(objs, t, legs) then |t'.fills| < |all| else t'.fills == all)
    decreases |legs|
  {
    if legs == [] {
      assert t.fills + [] == t.fills;
    } else {
      var rest, last := legs[..|legs| - 1], legs[|legs| - 1];
      LegsRecorded(objs, t, rest);
      assert rest + [last] == legs;
      TwoLegsMore(objs, t, rest, last);
      forall id
        ensures HasLeg(legs, id) <==> HasLeg(rest, id) || last.id == id
      {
        HasLegMore(rest, last, id);
      }
      JoinFills(t.fills, MakerFills(rest, t.resting.Keys),
                if last.id in t.resting.Keys then [Fill(last.id, last.qty as real, last.price)] else []);
    }
  }

  /** Every leg of a tracked order in a batch of trades becomes a fill at that order's own price, exactly
      when no tracked order that is filled by now has two legs in the batch. */
  lemma {:induction false} EveryLegFilledIff(objs: seq<Order>, t: Track, trs: seq<Trade>)
    ensures RecordTrades(objs, t, trs).fills == t.fills + MakerFills(Legs(trs), t.resting.Keys) <==>
            !TwoLegsOfDone(objs, t, Legs(trs))
  {
    RecordTradesIsLegs(objs, t, trs);
    LegsRecorded(objs, t, Legs(trs));
  }

  /** An order for 5 that two trades of one batch filled for 2 and for 3 is reported as filled for 2. */
  lemma {:induction false} SecondLegIsLost()
    ensures var objs := [Order(GoodTillCancel, 1, Sell, 100, 5, 0)];
      var trs := [Trade(TradeInfo(2, 100, 2), TradeInfo(1, 100, 2)), Trade(TradeInfo(3, 100, 3), TradeInfo(1, 100, 3))];
      RecordTrades(objs, Track(map[1 := Resting(0, "X", Sell)], []), trs).fills == [Fill(1, 2.0, 100)]
  {
    var objs := [Order(GoodTillCancel, 1, Sell, 100, 5, 0)];
    var trs := [Trade(TradeInfo(2, 100, 2), TradeInfo(1, 100, 2)), Trade(TradeInfo(3, 100, 3), TradeInfo(1, 100, 3))];
    var t := Track(map[1 := Resting(0, "X", Sell)], []);
    assert trs[..1] == [trs[0]] && trs[..1][..0] == [];
    assert RecordTrades(objs, t, trs[..1]) == Track(map[], [Fill(1, 2.0, 100)]);
  }
}
