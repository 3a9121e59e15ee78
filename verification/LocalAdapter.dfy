/** The paper-trading adapter over a local book: it submits orders, tracks what rests, turns book
    trades and bar ranges into fills, and cancels with a delay. The result is that no run queues
    more fills for an order than was submitted.

    Quantities of fills are kept in book units, that is multiplied by the quantity scale.
 */
module LocalAdapter {
  import opened Latency
  import opened PriceTimeBook
  import opened BookTheorems
  import opened NodeLists
  import opened BookMemory
  import opened BookIndex
  import opened FillAccounts
  import opened WalkedVwap
  import opened FillReports
  import OrderBook

  function Watch(resting: map<nat, Resting>): map<nat, nat> {
    map id | id in resting :: resting[id].obj
  }

  ghost predicate Tracks(resting: map<nat, Resting>, watch: map<nat, nat>) {
    forall id :: id in resting ==> id in watch && watch[id] == resting[id].obj
  }

  lemma {:induction false} TracksMore(resting: map<nat, Resting>, id: nat, p: nat)
    requires id !in Watch(resting)
    ensures Tracks(resting, Watch(resting)[id := p])
  {
    assert id !in resting;
  }

  class LocalBookAdapter {
    const ob: OrderBook.OrderBook
    const qtyScale: real
    const fadeRate: real
    const aggression: real
    const walkedImpact: bool
    const delayedCancels: bool

    var resting: map<nat, Resting>
    var pendingFills: seq<Fill>
    var pendingCancels: map<nat, int>
    var currentTime: int
    var midPrice: real
    var l2Seeded: bool

    ghost var submitted: map<nat, nat>    // book units submitted under each id
    ghost var polled: seq<Fill>           // fills handed out by PollFills

    // Held by the engine rather than the adapter: trades of other parties that it has not yet
    // passed on, and its id generator.
    var undelivered: seq<Trade>
    var nextId: nat

    ghost function Account(watch: map<nat, nat>, legs: seq<TradeInfo>): Acct
      reads this
    {
      Acct(watch, submitted, polled + pendingFills, legs, nextId)
    }

    /** The accounts are in order while the ids of `watch` are tracked and `legs` are unreported. */
    ghost predicate Ready(watch: map<nat, nat>, legs: seq<TradeInfo>)
      reads this, ob
    {
      && Safe(ob.Mem(), Account(watch, legs))
      && Tracks(resting, watch)
    }

    ghost predicate Valid()
      reads this, ob
    {
      ob.Valid() && Ready(Watch(resting), Legs(undelivered))
    }

    constructor (qtyScale: real, fadeRate: real, aggression: real, walkedImpact: bool, delayedCancels: bool)
      ensures Valid() && fresh(ob)
      ensures submitted == map[] && polled == [] && pendingFills == []
    {
      ob := new OrderBook.OrderBook();
      this.qtyScale := qtyScale;
      this.fadeRate := fadeRate;
      this.aggression := aggression;
      this.walkedImpact := walkedImpact;
      this.delayedCancels := delayedCancels;
      resting, pendingFills, pendingCancels := map[], [], map[];
      currentTime, midPrice, l2Seeded := 0, 0.0, false;
      submitted, polled, undelivered, nextId := map[], [], [], 0;
      new;
      EmptySafe(ob.Mem(), Account(Watch(resting), Legs(undelivered)));
    }

    // ----- Reporting trades

    /** `record_resting_fill` */
    method RecordRestingFill(leg: TradeInfo, ghost watch: map<nat, nat>, ghost rest: seq<TradeInfo>)
      requires Ready(watch, [leg] + rest)
      modifies this`resting, this`pendingFills
      ensures Ready(watch, rest)
      ensures Track(resting, pendingFills) == Record(ob.objs, Track(old(resting), old(pendingFills)), leg)
    {
      if leg.id !in resting {
        SkipSafe(ob.Mem(), Account(watch, [leg] + rest), leg, rest);
        return;
      }
      Queue(leg, Fill(leg.id, leg.qty as real, leg.price), watch, rest);
      if ob.objs[resting[leg.id].obj].remaining == 0 {
        resting := resting - {leg.id};
      }
    }

    /** Queues a fill for the first unreported trade leg, of a watched order. */
    method Queue(leg: TradeInfo, f: Fill, ghost watch: map<nat, nat>, ghost rest: seq<TradeInfo>)
      requires Ready(watch, [leg] + rest) && leg.id in watch && f.id == leg.id && f.units <= leg.qty as real
      modifies this`pendingFills
      ensures Ready(watch, rest) && pendingFills == old(pendingFills) + [f]
      ensures watch[leg.id] < |ob.objs|
    {
      ghost var m, a := ob.Mem(), Account(watch, [leg] + rest);
      assert Watched(m, a, leg.id);
      assert polled + (pendingFills + [f]) == a.queued + [f];
      pendingFills := pendingFills + [f];
      ReportSafe(m, a, Account(watch, rest), leg, f);
    }

    /** `on_book_trades`: the trades of other parties' book activity, reported once and in order. */
    method OnBookTrades(trs: seq<Trade>)
      requires Valid() && trs <= undelivered
      modifies this`resting, this`pendingFills, this`undelivered
      ensures Valid() && undelivered == old(undelivered)[|trs|..]
      ensures Track(resting, pendingFills) == RecordTrades(ob.objs, Track(old(resting), old(pendingFills)), trs)
    {
      ghost var watch := Watch(resting);
      var later := undelivered[|trs|..];
      var i := 0;
      assert trs[0..] + later == undelivered;
      while i < |trs|
        invariant i <= |trs| && undelivered == old(undelivered) && Ready(watch, Legs(trs[i..] + later))
        invariant Track(resting, pendingFills)
                  == RecordTrades(ob.objs, Track(old(resting), old(pendingFills)), trs[..i])
      {
        ghost var rest := Legs(trs[i + 1..] + later);
        LegsStep(trs, later, i);
        RecordRestingFill(trs[i].bid, watch, [trs[i].ask] + rest);
        RecordRestingFill(trs[i].ask, watch, rest);
        assert trs[..i + 1][..i] == trs[..i];
        i := i + 1;
      }
      assert trs[i..] + later == later && trs[..i] == trs;
      undelivered := later;
      ForgetSafe(ob.Mem(), Account(watch, Legs(later)), Watch(resting));
    }

    /** The submitted order's own leg of a trade. */
    method RecordOwnFill(leg: TradeInfo, id: nat, price: int, ghost watch: map<nat, nat>, ghost rest: seq<TradeInfo>)
      requires Ready(watch, [leg] + rest) && id in watch
      modifies this`pendingFills
      ensures Ready(watch, rest)
      ensures Track(resting, pendingFills) == OwnFill(Track(resting, old(pendingFills)), id, leg, price, fadeRate)
    {
      var units := leg.qty as real;
      if fadeRate > 0.0 {
        FadeShrinks(units, fadeRate);
        units := Faded(units, fadeRate);
      }
      if leg.id != id || (fadeRate > 0.0 && units <= 0.0) {
        SkipSafe(ob.Mem(), Account(watch, [leg] + rest), leg, rest);
        return;
      }
      Queue(leg, Fill(id, units, price), watch, rest);
    }

    method ReportTrade(tr: Trade, id: nat, ghost watch: map<nat, nat>, ghost rest: seq<TradeInfo>)
      requires Ready(watch, [tr.bid, tr.ask] + rest) && id in watch
      modifies this`resting, this`pendingFills
      ensures Ready(watch, rest)
      ensures Track(resting, pendingFills) == Report(ob.objs, Track(old(resting), old(pendingFills)), tr, id, fadeRate)
    {
      ghost var a := Account(watch, [tr.bid, tr.ask] + rest);
      var own, counter := tr.ask, tr.bid;
      if tr.bid.id == id {
        own, counter := tr.bid, tr.ask;
        SwapSafe(ob.Mem(), a, tr.bid, tr.ask, rest);
      }
      assert [counter, own] + rest == [counter] + ([own] + rest);
      if counter.id != id {
        RecordRestingFill(counter, watch, [own] + rest);
      } else {
        SkipSafe(ob.Mem(), Account(watch, [counter, own] + rest), counter, [own] + rest);
      }
      RecordOwnFill(own, id, counter.price, watch, rest);
    }

    method ReportAll(trs: seq<Trade>, id: nat, ghost watch: map<nat, nat>, ghost rest: seq<TradeInfo>)
      requires Ready(watch, Legs(trs) + rest) && id in watch
      modifies this`resting, this`pendingFills
      ensures Ready(watch, rest)
      ensures Track(resting, pendingFills)
              == ReportTrades(ob.objs, Track(old(resting), old(pendingFills)), trs, id, fadeRate)
    {
      var i := 0;
      assert trs[0..] == trs;
      while i < |trs|
        invariant i <= |trs| && Ready(watch, Legs(trs[i..]) + rest)
        invariant Track(resting, pendingFills) ==
                  ReportTrades(ob.objs, Track(old(resting), old(pendingFills)), trs[..i], id, fadeRate)
      {
        LegsHead(trs, rest, i);
        ReportTrade(trs[i], id, watch, Legs(trs[i + 1..]) + rest);
        assert trs[..i + 1][..i] == trs[..i];
        i := i + 1;
      }
      assert [] + rest == rest && trs[..i] == trs;
    }

    // ----- Submitting

    method BookPrice(o: OrderEvent, size: real, impactPrice: real) returns (price: int)
      requires ob.Valid()
      ensures price == EntryPrice(o, size, Depth(ob.View().Of(o.side.Opposite())),
                                  walkedImpact && l2Seeded, aggression, impactPrice)
    {
      if o.kind != AtMarket {
        return Round(o.price * PRICE_SCALE);
      }
      var ref := impactPrice;
      if walkedImpact && l2Seeded {
        var depth := ob.LevelInfos(o.side.Opposite());
        var vwap := WalkDepth(depth, size);
        if vwap > 0.0 {
          ref := vwap;
        }
      }
      price := CrossingPrice(o.side, ref, aggression);
    }

    /** Placing an accepted order in the book; the order is watched while its trades are reported. */
    method Place(o: OrderEvent, price: int, units: nat) returns (p: nat, trades: seq<Trade>)
      requires Valid() && o.id >= nextId
      modifies this`submitted, this`nextId, ob
      ensures ob.Valid() && p == |old(ob.objs)| && p < |ob.objs| && nextId == o.id + 1
      ensures Matched(trades, ob.View()) ==
              PriceTimeBook.AddOrder(old(ob.View()), Order(BookKind(o.tif), o.id, o.side, price, units, units))
      ensures submitted == old(submitted)[o.id := units] && o.id !in old(submitted)
      ensures ob.objs[p].remaining + Traded(trades, o.id) == units
      ensures Ready(Watch(resting)[o.id := p], Legs(trades) + Legs(undelivered))
    {
      ghost var m, a := ob.Mem(), Account(Watch(resting), Legs(undelivered));
      submitted, nextId := submitted[o.id := units], o.id + 1;
      p, trades := ob.CreateAndAdd(BookKind(o.tif), o.id, o.side, price, units);
      PlaceSafe(m, ob.Mem(), a, Account(Watch(resting)[o.id := p], Legs(trades) + Legs(undelivered)),
                Order(BookKind(o.tif), o.id, o.side, price, units, units), trades);
      TracksMore(resting, o.id, p);
    }

    /** The rest of a submission: track what rests, then turn the trades into fills. */
    method Settle(o: OrderEvent, p: nat, trades: seq<Trade>)
      requires ob.Valid() && p < |ob.objs|
      requires Ready(Watch(resting)[o.id := p], Legs(trades) + Legs(undelivered))
      modifies this`resting, this`pendingFills
      ensures Valid()
      ensures Track(resting, pendingFills) ==
              ReportTrades(ob.objs, Track(Placed(old(resting), o, p, ob.objs), old(pendingFills)), trades, o.id,
                           fadeRate)
    {
      ghost var watch := Watch(resting)[o.id := p];
      if BookKind(o.tif) == GoodTillCancel && ob.objs[p].remaining > 0 {
        resting := resting[o.id := Resting(p, o.symbol, o.side)];
      }
      ReportAll(trades, o.id, watch, Legs(undelivered));
      ForgetSafe(ob.Mem(), Account(watch, Legs(undelivered)), Watch(resting));
    }

    /** An uncrossed book without the order. */
    lemma OrderlyNow(o: OrderEvent)
      requires Valid() && o.id >= nextId && !Crossed(ob.View()) && PassiveBook(ob.View())
      ensures Orderly(ob.View(), o.side, o.id) && o.id !in resting
    {
      AbstractWf(ob.Mem(), ob.threads, {});
      IndexedIffPresent(ob.Mem(), ob.threads, {}, o.id);
      ghost var s := o.side.Opposite();
      assert ob.View().Of(s) == AbstractSide(ob.Mem(), ob.threads, s);
      forall i: nat, j: nat | i < j < |Flatten(ob.View().Of(s))|
        ensures Flatten(ob.View().Of(s))[i].id != Flatten(ob.View().Of(s))[j].id
      {
        FlatDistinct(ob.Mem(), ob.threads, s, i, j);
      }
      assert o.id in resting ==> o.id in Watch(resting);
    }

    method Enter(o: OrderEvent, price: int, units: nat)
      requires Valid() && o.id >= nextId
      modifies this`resting, this`pendingFills, this`submitted, this`nextId, ob
      ensures Valid()
      ensures Submitted(Inner(old(ob.View()), |old(ob.objs)|, old(resting), old(pendingFills), old(submitted)),
                      o, price, units, fadeRate,
                      Inner(ob.View(), |ob.objs|, resting, pendingFills, submitted), ob.objs)
    {
      ghost var x := Inner(ob.View(), |ob.objs|, resting, pendingFills, submitted);
      if !Crossed(x.book) && PassiveBook(x.book) {
        OrderlyNow(o);
      }
      var p, trades := Place(o, price, units);
      Settle(o, p, trades);
      ghost var y := Inner(ob.View(), |ob.objs|, resting, pendingFills, submitted);
      if !Crossed(x.book) && PassiveBook(x.book) {
        EnteredIsReported(x, o, price, units, fadeRate, y, ob.objs);
      }
    }

    /** A submission that is not dropped. */
    method Accept(o: OrderEvent, impactPrice: real)
      requires Valid() && o.id >= nextId && o.qty * qtyScale >= 0.0
      modifies this`resting, this`pendingFills, this`submitted, this`nextId, ob
      ensures Valid()
      ensures Submitted(Inner(old(ob.View()), |old(ob.objs)|, old(resting), old(pendingFills), old(submitted)), o,
                      EntryPrice(o, o.qty * qtyScale, Depth(old(ob.View().Of(o.side.Opposite()))),
                                 walkedImpact && l2Seeded, aggression, impactPrice),
                      Round(o.qty * qtyScale), fadeRate,
                      Inner(ob.View(), |ob.objs|, resting, pendingFills, submitted), ob.objs)
    {
      var size := o.qty * qtyScale;
      var price := BookPrice(o, size, impactPrice);
      var units: nat := Round(size);
      Enter(o, price, units);
    }

    /** `submit_order`; the draw against the fill model and the impact price come from outside. */
    method Submit(o: OrderEvent, modelled: bool, sample: real, prob: real, impactPrice: real)
      requires Valid() && o.id >= nextId && o.qty * qtyScale >= 0.0
      modifies this`resting, this`pendingFills, this`submitted, this`nextId, ob
      ensures Valid()
      ensures Dropped(o, modelled, midPrice, sample, prob) ==>
        && ob.View() == old(ob.View()) && ob.objs == old(ob.objs)
        && resting == old(resting) && pendingFills == old(pendingFills) && submitted == old(submitted)
      ensures !Dropped(o, modelled, midPrice, sample, prob) ==>
        Submitted(Inner(old(ob.View()), |old(ob.objs)|, old(resting), old(pendingFills), old(submitted)), o,
                EntryPrice(o, o.qty * qtyScale, Depth(old(ob.View().Of(o.side.Opposite()))),
                           walkedImpact && l2Seeded, aggression, impactPrice),
                Round(o.qty * qtyScale), fadeRate,
                Inner(ob.View(), |ob.objs|, resting, pendingFills, submitted), ob.objs)
    {
      if o.kind == Stop || o.kind == StopLimit {
        return;
      }
      if modelled && o.kind == Limit && midPrice > 0.0 && sample > prob {
        return;
      }
      Accept(o, impactPrice);
    }

    // ----- Fills, cancels and amendments

    /** `poll_fills` */
    method PollFills() returns (out: seq<Fill>)
      requires Valid()
      modifies this`pendingFills, this`polled
      ensures Valid() && out == old(pendingFills) && pendingFills == [] && polled == old(polled) + out
    {
      out := pendingFills;
      ghost var all := polled + pendingFills;
      pendingFills, polled := [], all;
      assert polled + pendingFills == all;
    }

    method CancelNow(id: nat)
      requires Valid()
      modifies this`resting, ob
      ensures Valid() && resting == old(resting) - {id} && ob.View() == Cancel(old(ob.View()), id)
      ensures ob.objs == old(ob.objs) && ob.orderMap == old(ob.orderMap) - {id}
    {
      ghost var m, a := ob.Mem(), Account(Watch(resting), Legs(undelivered));
      resting := resting - {id};
      ob.CancelOrder(id);
      DropSafe(m, ob.Mem(), a, Account(Watch(resting), Legs(undelivered)));
    }

    /** `cancel_order`: at once, or after the cancel latency. */
    method CancelOrder(id: nat, latency: int)
      requires Valid()
      modifies this`resting, this`pendingCancels, ob
      ensures Valid()
      ensures delayedCancels ==>
                && resting == old(resting) && ob.View() == old(ob.View())
                && pendingCancels == old(pendingCancels)[id := currentTime + latency]
      ensures !delayedCancels ==>
                && resting == old(resting) - {id} && ob.View() == Cancel(old(ob.View()), id)
                && pendingCancels == old(pendingCancels)
    {
      if delayedCancels {
        pendingCancels := pendingCancels[id := currentTime + latency];
        return;
      }
      CancelNow(id);
    }

    /** `modify_order`: the replaced order is no longer tracked. */
    method ModifyOrder(id: nat, price: real, qty: real) returns (found: bool)
      requires Valid() && qty * qtyScale >= 0.0
      modifies this`resting, ob
      ensures Valid() && resting == old(resting) - {id} && (found <==> id in old(ob.orderMap))
      ensures !found ==> ob.View() == old(ob.View())
      ensures found ==>
        && ObjectOf(old(ob.Mem()), id) < |old(ob.objs)|
        && var was := old(ob.objs)[ObjectOf(old(ob.Mem()), id)];
           var units := Round(qty * qtyScale);
           ob.View() == Replace(old(ob.View()), Order(was.kind, id, was.side, Round(price * PRICE_SCALE), units, units))
    {
      ghost var m, a := ob.Mem(), Account(Watch(resting), Legs(undelivered));
      resting := resting - {id};
      var units: nat := Round(qty * qtyScale);
      found := ob.ModifyOrder(id, Round(price * PRICE_SCALE), units);
      DropSafe(m, ob.Mem(), a, Account(Watch(resting), Legs(undelivered)));
    }

    ghost function CancelState(): Cancelling
      reads this, ob
    {
      Cancelling(pendingCancels, resting, ob.View())
    }

    /** One cancel whose latency has passed. */
    method CancelDue(id: nat)
      requires Valid()
      modifies this`resting, this`pendingCancels, ob
      ensures Valid() && ob.objs == old(ob.objs)
      ensures CancelState() == LapseOne(old(CancelState()), id)
    {
      pendingCancels := pendingCancels - {id};
      CancelNow(id);
    }

    /** `advance_time`: cancels whose latency has passed take effect. */
    method AdvanceTime(ts: int)
      requires Valid()
      modifies this`resting, this`pendingCancels, this`currentTime, ob
      ensures Valid() && currentTime == ts
      ensures var due := Due(old(pendingCancels), ts);
        && pendingCancels == old(pendingCancels) - due && resting == old(resting) - due
        && ob.View() == CancelAll(old(ob.View()), due) && ob.objs == old(ob.objs)
    {
      currentTime := ts;
      var due := Due(pendingCancels, ts);
      var done := {};
      ghost var start := CancelState();
      AbstractWf(ob.Mem(), ob.threads, {});
      LapseNone(start);
      while done != due
        invariant done <= due && Valid() && currentTime == ts
        invariant CancelState() == Lapse(start, done) && ob.objs == old(ob.objs)
        decreases due - done
      {
        var id :| id in due && id !in done;
        LapseMore(start, done, id);
        CancelDue(id);
        done := done + {id};
      }
    }

    /** The fill for what is left of a tracked order, which is then no longer tracked. */
    method FillRest(f: Fill)
      requires Ready(Watch(resting), Legs(undelivered)) && f.id in resting && resting[f.id].obj < |ob.objs|
      requires f.units <= ob.objs[resting[f.id].obj].remaining as real
      modifies this`resting, this`pendingFills
      ensures Ready(Watch(resting), Legs(undelivered))
      ensures resting == old(resting) - {f.id} && pendingFills == old(pendingFills) + [f]
    {
      ghost var m, a := ob.Mem(), Account(Watch(resting), Legs(undelivered));
      assert polled + (pendingFills + [f]) == a.queued + [f];
      assert Watch(resting - {f.id}) == a.watch - {f.id};
      pendingFills := pendingFills + [f];
      resting := resting - {f.id};
      SweepSafe(m, a, Account(Watch(resting), Legs(undelivered)), f);
    }

    method Forget(id: nat)
      requires Ready(Watch(resting), Legs(undelivered))
      modifies this`resting
      ensures Ready(Watch(resting), Legs(undelivered)) && resting == old(resting) - {id}
    {
      ghost var a := Account(Watch(resting), Legs(undelivered));
      resting := resting - {id};
      ForgetSafe(ob.Mem(), a, Watch(resting));
    }

    ghost function SweepState(any: bool): Swept
      reads this, ob
    {
      Swept(resting, pendingFills, ob.View(), any)
    }

    method SweepLeft(f: Fill)
      requires Valid() && f.id in resting && resting[f.id].obj < |ob.objs|
      requires f.units <= ob.objs[resting[f.id].obj].remaining as real
      modifies this`resting, this`pendingFills, ob
      ensures Valid() && ob.objs == old(ob.objs)
      ensures resting == old(resting) - {f.id} && pendingFills == old(pendingFills) + [f]
      ensures ob.View() == Cancel(old(ob.View()), f.id)
    {
      FillRest(f);
      MinusTwice(old(resting), f.id);
      CancelNow(f.id);
    }

    /** One tracked order that the bar traversed: fill what is left of it and take it off the book. */
    method SweepOne(id: nat, ghost any: bool) returns (filled: bool)
      requires Valid() && id in resting && resting[id].obj < |ob.objs|
      modifies this`resting, this`pendingFills, ob
      ensures Valid() && ob.objs == old(ob.objs)
      ensures SweepState(any || filled) == SweepOrder(old(SweepState(any)), id, ob.objs)
    {
      var o := ob.objs[resting[id].obj];
      filled := o.remaining > 0;
      if filled {
        SweepLeft(Fill(id, o.remaining as real, o.price));
      } else {
        Forget(id);
      }
    }

    /** `sweep_resting_range`: every tracked order of the symbol whose level the bar reached, unless
        its cancel is under way, is filled for what is left of it at its own price. */
    method SweepRestingRange(symbol: string, low: real, high: real) returns (any: bool)
      requires Valid()
      modifies this`resting, this`pendingFills, ob
      ensures Valid() && ob.objs == old(ob.objs)
      ensures low <= 0.0 || high <= 0.0 ==> SweepState(any) == old(SweepState(false))
      ensures low > 0.0 && high > 0.0 ==>
        SweptAll(old(SweepState(false)), SweepState(any),
                 Traversed(old(resting), ob.objs, pendingCancels.Keys, symbol, low, high), ob.objs)
    {
      any := false;
      if low <= 0.0 || high <= 0.0 {
        return;
      }
      ghost var start := SweepState(false);
      var hit := Traversed(resting, ob.objs, pendingCancels.Keys, symbol, low, high);
      var done := {};
      AbstractWf(ob.Mem(), ob.threads, {});
      SweptNone(start, ob.objs);
      while done != hit
        invariant done <= hit && Valid() && ob.objs == old(ob.objs)
        invariant SweptAll(start, SweepState(any), done, ob.objs)
        decreases hit - done
      {
        var id :| id in hit && id !in done;
        SweptStep(start, SweepState(any), done, id, ob.objs);
        var filled := SweepOne(id, any);
        any := any || filled;
        done := done + {id};
      }
    }

    // ----- The shared book in other hands

    method PlaceForeign(kind: OrderType, id: nat, side: Side, price: int, qty: nat) returns (trades: seq<Trade>)
      requires Valid() && id >= nextId
      modifies this`nextId, ob
      ensures ob.Valid() && nextId == id + 1 && Ready(Watch(resting), Legs(undelivered + trades))
      ensures Matched(trades, ob.View())
              == PriceTimeBook.AddOrder(old(ob.View()), Order(kind, id, side, price, qty, qty))
    {
      ghost var m, a := ob.Mem(), Account(Watch(resting), Legs(undelivered));
      nextId := id + 1;
      var p;
      p, trades := ob.CreateAndAdd(kind, id, side, price, qty);
      ForeignSafe(m, ob.Mem(), a, Account(Watch(resting), Legs(undelivered + trades)), undelivered,
                  Order(kind, id, side, price, qty, qty), trades);
    }

    /** Another party's order; its trades reach the adapter later, through `OnBookTrades`. */
    method ForeignAdd(kind: OrderType, id: nat, side: Side, price: int, qty: nat) returns (trades: seq<Trade>)
      requires Valid() && id >= nextId
      modifies this`undelivered, this`nextId, ob
      ensures Valid() && undelivered == old(undelivered) + trades && nextId == id + 1
      ensures Matched(trades, ob.View())
              == PriceTimeBook.AddOrder(old(ob.View()), Order(kind, id, side, price, qty, qty))
    {
      trades := PlaceForeign(kind, id, side, price, qty);
      undelivered := undelivered + trades;
    }

    method ForeignCancel(id: nat)
      requires Valid()
      modifies ob
      ensures Valid() && ob.View() == Cancel(old(ob.View()), id)
    {
      ghost var m, a := ob.Mem(), Account(Watch(resting), Legs(undelivered));
      ob.CancelOrder(id);
      DropSafe(m, ob.Mem(), a, Account(Watch(resting), Legs(undelivered)));
    }

    method QuoteUpdate(s: Side, price: int, qty: nat, id: nat)
      requires Valid() && id >= nextId
      modifies this`nextId, ob
      ensures Valid() && nextId == id + 1 && ob.View() == L2Update(old(ob.View()), s, price, qty, id)
    {
      ghost var m, a := ob.Mem(), Account(Watch(resting), Legs(undelivered));
      nextId := id + 1;
      ob.ApplyL2Update(s, price, qty, id);
      UpdateSafe(m, ob.Mem(), a, Account(Watch(resting), Legs(undelivered)), id);
    }

    /** The snapshot empties the book; tracked orders that were in it simply stop trading. */
    method QuoteSnapshot(bids: seq<(int, nat)>, asks: seq<(int, nat)>, id: nat)
      requires Valid() && id >= nextId
      modifies this`nextId, ob
      ensures Valid() && nextId == id + RowCount(bids) + RowCount(asks)
      ensures ob.View() == Book(SnapshotSide([], Buy, bids, id), SnapshotSide([], Sell, asks, id + RowCount(bids)))
    {
      ghost var m, a := ob.Mem(), Account(Watch(resting), Legs(undelivered));
      nextId := id + RowCount(bids) + RowCount(asks);
      ob.ApplyL2Snapshot(bids, asks, id);
      SnapshotSafe(m, ob.Mem(), a, Account(Watch(resting), Legs(undelivered)), id);
    }

    // ----- Whole runs

    /** What was handed out and what is queued for an id never exceeds what was submitted under it,
        and nothing is queued for ids that were not submitted here. */
    lemma NeverOverfilled(id: nat)
      requires Valid()
      ensures Filled(polled + pendingFills, id) <= if id in submitted then submitted[id] as real else 0.0
    {
      assert Bounded(Account(Watch(resting), Legs(undelivered)));
    }

    method SendNext(o: OrderEvent, modelled: bool, sample: real, prob: real, impact: real)
      requires Valid() && qtyScale > 0.0
      modifies this`resting, this`pendingFills, this`submitted, this`nextId, ob
      ensures Valid()
      ensures forall id :: id in old(submitted) ==> id in submitted && submitted[id] == old(submitted)[id]
    {
      SizeNonNegative(o.qty, qtyScale);
      Submit(o.(id := nextId), modelled, sample, prob, impact);
    }

    /** One call on the adapter or on the book it shares; new orders get the generator's next id. */
    method Do(e: Event)
      requires Valid() && qtyScale > 0.0
      modifies this, ob
      ensures Valid()
      ensures forall id :: id in old(submitted) ==> id in submitted && submitted[id] == old(submitted)[id]
      ensures old(polled) <= polled
    {
      match e {
        case Send(o, modelled, sample, prob, impact) =>
          SendNext(o, modelled, sample, prob, impact);
        case Deliver(n) =>
          OnBookTrades(undelivered[..if n <= |undelivered| then n else |undelivered|]);
        case Poll =>
          var out := PollFills();
        case Pull(id, latency) =>
          CancelOrder(id, latency);
        case Amend(id, price, qty) =>
          SizeNonNegative(qty, qtyScale);
          var found := ModifyOrder(id, price, qty);
        case Clock(ts) =>
          AdvanceTime(ts);
        case Bar(symbol, low, high) =>
          var any := SweepRestingRange(symbol, low, high);
        case Market(price, seeded) =>
          midPrice, l2Seeded := price, seeded;
        case Shared(b) =>
          DoShared(b);
      }
    }

    /** One operation of another party on the book. */
    method DoShared(e: BookEvent)
      requires Valid()
      modifies this`undelivered, this`nextId, ob
      ensures Valid()
    {
      match e {
        case Other(kind, side, price, qty) =>
          var trades := ForeignAdd(kind, nextId, side, price, qty);
        case Unquote(id) =>
          ForeignCancel(id);
        case Quote(s, price, qty) =>
          QuoteUpdate(s, price, qty, nextId);
        case Reset(bids, asks) =>
          QuoteSnapshot(bids, asks, nextId);
      }
    }

    /** Over every run, the fills of an order never total more than its submitted quantity. */
    method Run(events: seq<Event>)
      requires Valid() && qtyScale > 0.0
      modifies this, ob
      ensures Valid()
      ensures forall id :: Filled(polled + pendingFills, id) <= if id in submitted then submitted[id] as real else 0.0
    {
      for i := 0 to |events|
        invariant Valid()
      {
        Do(events[i]);
      }
      forall id
        ensures Filled(polled + pendingFills, id) <= if id in submitted then submitted[id] as real else 0.0
      {
        NeverOverfilled(id);
      }
    }
  }

  /** The calls of a run; the values that models and venues supply are arbitrary. */
  datatype Event =
    | Send(o: OrderEvent, modelled: bool, sample: real, prob: real, impact: real)
    | Deliver(n: nat)
    | Poll
    | Pull(id: nat, latency: int)
    | Amend(id: nat, price: real, qty: Size)
    | Clock(ts: int)
    | Bar(symbol: string, low: real, high: real)
    | Market(mid: real, seeded: bool)
    | Shared(b: BookEvent)

  datatype BookEvent =
    | Other(kind: OrderType, side: Side, price: int, qty: nat)
    | Unquote(id: nat)
    | Quote(side: Side, price: int, qty: nat)
    | Reset(bids: seq<(int, nat)>, asks: seq<(int, nat)>)

  lemma SizeNonNegative(qty: real, scale: real)
    requires qty >= 0.0 && scale > 0.0
    ensures qty * scale >= 0.0
  {
  }

  function Lower(low: real, high: real): real {
    if low <= high then low else high
  }

  function Upper(low: real, high: real): real {
    if low <= high then high else low
  }

  /** The tracked orders of a symbol that have no cancel under way. */
  function Eligible(resting: map<nat, Resting>, objs: seq<Order>, cancelling: set<nat>, symbol: string): set<nat> {
    set id | id in resting && resting[id].symbol == symbol && id !in cancelling && resting[id].obj < |objs|
  }

  function LimitOf(resting: map<nat, Resting>, objs: seq<Order>, id: nat): real
    requires id in resting && resting[id].obj < |objs|
  {
    ToDouble(objs[resting[id].obj].price)
  }

  /** The tracked orders a bar with range `low` to `high` (either way round) traded through. */
  function Traversed(resting: map<nat, Resting>, objs: seq<Order>, cancelling: set<nat>, symbol: string, low: real,
                     high: real): set<nat> {
    set id | && id in Eligible(resting, objs, cancelling, symbol)
             && var px := LimitOf(resting, objs, id);
                if resting[id].side == Buy then Lower(low, high) <= px else px <= Upper(low, high)
  }

  /** No buy is limited above the bar and no sell below it. */
  predicate NoneBeyond(resting: map<nat, Resting>, objs: seq<Order>, cancelling: set<nat>, symbol: string, low: real,
                       high: real) {
    forall id :: id in Eligible(resting, objs, cancelling, symbol) ==>
      if resting[id].side == Buy then LimitOf(resting, objs, id) <= Upper(low, high)
      else Lower(low, high) <= LimitOf(resting, objs, id)
  }

  predicate SweptInside(resting: map<nat, Resting>, objs: seq<Order>, cancelling: set<nat>, symbol: string, low: real,
                        high: real) {
    forall id :: id in Traversed(resting, objs, cancelling, symbol, low, high) ==>
      Lower(low, high) <= LimitOf(resting, objs, id) <= Upper(low, high)
  }

  /** A bar sweeps every tracked order of its symbol that has no cancel under way and whose limit lies in
      its range, and no order of another symbol or with a cancel under way. */
  lemma {:induction false} InsideIsSwept(resting: map<nat, Resting>, objs: seq<Order>, cancelling: set<nat>,
                                         symbol: string, low: real, high: real, id: nat)
    requires id in resting && resting[id].obj < |objs|
    ensures var px := ToDouble(objs[resting[id].obj].price);
      var swept := id in Traversed(resting, objs, cancelling, symbol, low, high);
      && (swept ==> resting[id].symbol == symbol && id !in cancelling)
      && (resting[id].symbol == symbol && id !in cancelling && (low <= px <= high || high <= px <= low) ==> swept)
  {
  }

  /** A bar sweeps only limits inside its range exactly when none is beyond it. */
  lemma {:induction false} SweptInsideIff(resting: map<nat, Resting>, objs: seq<Order>, cancelling: set<nat>,
                                          symbol: string, low: real, high: real)
    ensures SweptInside(resting, objs, cancelling, symbol, low, high) <==>
            NoneBeyond(resting, objs, cancelling, symbol, low, high)
  {
    var eligible := Eligible(resting, objs, cancelling, symbol);
    var swept := Traversed(resting, objs, cancelling, symbol, low, high);
    assert forall id :: id in swept ==> id in eligible;
    if SweptInside(resting, objs, cancelling, symbol, low, high) {
      forall id | id in eligible
        ensures if resting[id].side == Buy then LimitOf(resting, objs, id) <= Upper(low, high)
                else Lower(low, high) <= LimitOf(resting, objs, id)
      {
        assert id !in swept || Lower(low, high) <= LimitOf(resting, objs, id) <= Upper(low, high);
      }
    }
  }

  /** A buy limited at 103 is swept by a bar from 98 to 101, and for all that is left of it. */
  lemma {:induction false} SweepsAboveTheBar()
    ensures var resting := map[1 := Resting(0, "X", Buy)];
      var objs := [Order(GoodTillCancel, 1, Buy, 1030000, 5, 5)];
      && Traversed(resting, objs, {}, "X", 98.0, 101.0) == {1}
      && Left(resting, objs, 1) && RestFill(resting, objs, 1) == Fill(1, 5.0, 1030000)
      && LimitOf(resting, objs, 1) == 103.0 > Upper(98.0, 101.0)
  {
    var resting := map[1 := Resting(0, "X", Buy)];
    var objs := [Order(GoodTillCancel, 1, Buy, 1030000, 5, 5)];
    assert 1 in Traversed(resting, objs, {}, "X", 98.0, 101.0);
  }

  datatype Swept = Swept(resting: map<nat, Resting>, fills: seq<Fill>, book: Book, any: bool)

  predicate Left(resting: map<nat, Resting>, objs: seq<Order>, id: nat) {
    id in resting && resting[id].obj < |objs| && objs[resting[id].obj].remaining > 0
  }

  function RestFill(resting: map<nat, Resting>, objs: seq<Order>, id: nat): Fill
    requires Left(resting, objs, id)
  {
    Fill(id, objs[resting[id].obj].remaining as real, objs[resting[id].obj].price)
  }

  function SweepOrder(s: Swept, id: nat, objs: seq<Order>): Swept {
    if Left(s.resting, objs, id)
    then Swept(s.resting - {id}, s.fills + [RestFill(s.resting, objs, id)], Cancel(s.book, id), true)
    else s.(resting := s.resting - {id})
  }

  /** Those of `ids` with something left. */
  function Open(ids: set<nat>, resting: map<nat, Resting>, objs: seq<Order>): set<nat> {
    set id | id in ids && Left(resting, objs, id)
  }

  /** The tracked orders `ids` are gone. Those with something left are off the book and have exactly
      one added fill each, for the full remainder at the order's own price; nothing else was added. */
  ghost predicate SweptAll(s: Swept, s': Swept, ids: set<nat>, objs: seq<Order>) {
    var open := Open(ids, s.resting, objs);
    && s'.resting == s.resting - ids && s'.book == CancelAll(s.book, open) && (s'.any <==> s.any || open != {})
    && s.fills <= s'.fills && OneFillEach(s'.fills[|s.fills|..], open, s.resting, objs)
  }

  ghost predicate OneFillEach(fs: seq<Fill>, open: set<nat>, resting: map<nat, Resting>, objs: seq<Order>) {
    && |fs| == |open|
    && (forall id :: id in open ==> Left(resting, objs, id) && RestFill(resting, objs, id) in fs)
    && forall f :: f in fs ==> f.id in open && Left(resting, objs, f.id) && f == RestFill(resting, objs, f.id)
  }

  lemma {:induction false} OneFillMore(before: seq<Fill>, after: seq<Fill>, open: set<nat>, open': set<nat>,
                                       resting: map<nat, Resting>, objs: seq<Order>, id: nat)
    requires before <= after && OneFillEach(after[|before|..], open, resting, objs)
    requires id !in open && open' == open + {id} && Left(resting, objs, id)
    ensures OneFillEach((after + [RestFill(resting, objs, id)])[|before|..], open', resting, objs)
  {
    var f := RestFill(resting, objs, id);
    assert (after + [f])[|before|..] == after[|before|..] + [f];
  }

  lemma {:induction false} SweptNone(s: Swept, objs: seq<Order>)
    requires Wf(s.book)
    ensures SweptAll(s, s, {}, objs)
  {
    assert s.fills[|s.fills|..] == [];
    assert Open({}, s.resting, objs) == {};
    MinusNone(s.resting);
    CancelNone(s.book);
  }

  lemma {:induction false} SweptStep(s: Swept, s': Swept, done: set<nat>, id: nat, objs: seq<Order>)
    requires SweptAll(s, s', done, objs) && id in s.resting && id !in done
    ensures SweptAll(s, SweepOrder(s', id, objs), done + {id}, objs)
    ensures id in s'.resting && s'.resting[id] == s.resting[id]
  {
    if Left(s.resting, objs, id) {
      SweptLeft(s, s', done, id, objs);
    } else {
      OpenMore(done, id, s.resting, objs);
      MinusOne(s.resting, done, id);
    }
  }

  lemma {:induction false} SweptParts(s: Swept, s': Swept, ids: set<nat>, open: set<nat>, objs: seq<Order>)
    requires open == Open(ids, s.resting, objs)
    requires s'.resting == s.resting - ids && s'.book == CancelAll(s.book, open) && (s'.any <==> s.any || open != {})
    requires s.fills <= s'.fills && OneFillEach(s'.fills[|s.fills|..], open, s.resting, objs)
    ensures SweptAll(s, s', ids, objs)
  {
  }

  lemma {:induction false} OpenMore(done: set<nat>, id: nat, resting: map<nat, Resting>, objs: seq<Order>)
    ensures Open(done + {id}, resting, objs) ==
            if Left(resting, objs, id) then Open(done, resting, objs) + {id} else Open(done, resting, objs)
    ensures id !in done ==> id !in Open(done, resting, objs)
  {
  }

  lemma {:induction false} SweepLeftIs(s: Swept, resting: map<nat, Resting>, done: set<nat>, id: nat, objs: seq<Order>)
    requires s.resting == resting - done && id !in done && Left(resting, objs, id)
    ensures SweepOrder(s, id, objs) ==
      Swept(resting - (done + {id}), s.fills + [RestFill(resting, objs, id)], Cancel(s.book, id), true)
  {
    assert s.resting[id] == resting[id];
    MinusOne(resting, done, id);
  }

  lemma {:induction false} SweptLeft(s: Swept, s': Swept, done: set<nat>, id: nat, objs: seq<Order>)
    requires SweptAll(s, s', done, objs) && id in s.resting && id !in done && Left(s.resting, objs, id)
    ensures SweptAll(s, SweepOrder(s', id, objs), done + {id}, objs)
  {
    var open := Open(done, s.resting, objs);
    OpenMore(done, id, s.resting, objs);
    SweepLeftIs(s', s.resting, done, id, objs);
    CancelOneMore(s.book, open, id);
    OneFillMore(s.fills, s'.fills, open, open + {id}, s.resting, objs, id);
    SweptParts(s, SweepOrder(s', id, objs), done + {id}, open + {id}, objs);
  }

  // ----- What a sweep pays

  function FillIds(fs: seq<Fill>): set<nat> {
    if fs == [] then {} else FillIds(fs[..|fs| - 1]) + {fs[|fs| - 1].id}
  }

  lemma {:induction false} FillIdsOf(fs: seq<Fill>, open: set<nat>)
    requires forall f :: f in fs ==> f.id in open
    requires forall id :: id in open ==> exists f :: f in fs && f.id == id
    ensures FillIds(fs) == open
  {
    FillIdsMember(fs);
  }

  lemma {:induction false} FillIdsMember(fs: seq<Fill>)
    ensures forall id :: id in FillIds(fs) <==> exists f :: f in fs && f.id == id
  {
    if fs != [] {
      var n := |fs| - 1;
      FillIdsMember(fs[..n]);
      assert fs == fs[..n] + [fs[n]];
    }
  }

  ghost predicate OncePerId(fs: seq<Fill>) {
    forall i, j :: 0 <= i < j < |fs| ==> fs[i].id != fs[j].id
  }

  lemma {:induction false} FillIdsCount(fs: seq<Fill>)
    ensures |FillIds(fs)| <= |fs|
    ensures |FillIds(fs)| == |fs| ==> OncePerId(fs)
  {
    if fs != [] {
      var n := |fs| - 1;
      FillIdsCount(fs[..n]);
      FillIdsMember(fs[..n]);
      if fs[n].id in FillIds(fs[..n]) {
        assert FillIds(fs) == FillIds(fs[..n]);
      } else {
        forall i | 0 <= i < n
          ensures fs[i].id != fs[n].id
        {
          assert fs[i] in fs[..n];
        }
      }
    }
  }

  lemma {:induction false} PaidOnce(fs: seq<Fill>, f: Fill)
    requires OncePerId(fs)
    ensures f in fs ==> Filled(fs, f.id) == f.units && Spent(fs, f.id) == Paid(f.units, f.price)
    ensures (forall g :: g in fs ==> g.id != f.id) ==> Filled(fs, f.id) == 0.0 && Spent(fs, f.id) == 0.0
  {
    if fs != [] {
      var n := |fs| - 1;
      assert OncePerId(fs[..n]) && fs == fs[..n] + [fs[n]];
      PaidOnce(fs[..n], f);
      if f == fs[n] {
        forall g | g in fs[..n]
          ensures g.id != f.id
        {
          var i :| 0 <= i < n && fs[i] == g;
        }
      }
    }
  }

  lemma {:induction false} PaidConcat(fs: seq<Fill>, gs: seq<Fill>, id: nat)
    ensures Filled(fs + gs, id) == Filled(fs, id) + Filled(gs, id)
    ensures Spent(fs + gs, id) == Spent(fs, id) + Spent(gs, id)
  {
    if gs == [] {
      assert fs + gs == fs;
    } else {
      var n := |gs| - 1;
      PaidConcat(fs, gs[..n], id);
      assert (fs + gs)[..|fs + gs| - 1] == fs + gs[..n];
    }
  }

  lemma {:induction false} OnePaidEach(fs: seq<Fill>, open: set<nat>, resting: map<nat, Resting>, objs: seq<Order>,
                                       id: nat)
    requires OneFillEach(fs, open, resting, objs)
    ensures id in open ==>
      && Filled(fs, id) == objs[resting[id].obj].remaining as real
      && Spent(fs, id) == Paid(objs[resting[id].obj].remaining as real, objs[resting[id].obj].price)
    ensures id !in open ==> Filled(fs, id) == 0.0 && Spent(fs, id) == 0.0
  {
    forall d | d in open
      ensures exists f :: f in fs && f.id == d
    {
      assert RestFill(resting, objs, d) in fs;
    }
    FillIdsOf(fs, open);
    FillIdsCount(fs);
    PaidOnce(fs, if id in open then RestFill(resting, objs, id) else Fill(id, 0.0, 0));
  }

  lemma {:induction false} PaidNothing(objs: seq<Order>, resting: map<nat, Resting>, id: nat)
    ensures Paid(0.0, 0) == 0.0
    ensures id in resting && resting[id].obj < |objs| && objs[resting[id].obj].remaining == 0 ==>
              Paid(objs[resting[id].obj].remaining as real, objs[resting[id].obj].price) == 0.0
  {
  }

  /** A sweep fills every order it takes for exactly what was left of it, at the order's own limit, and
      nothing else. */
  lemma {:induction false} SweptInFull(s: Swept, s': Swept, ids: set<nat>, objs: seq<Order>, id: nat)
    requires SweptAll(s, s', ids, objs)
    ensures var hit := id in ids && id in s.resting && s.resting[id].obj < |objs|;
      var o := if hit then objs[s.resting[id].obj] else Order(GoodTillCancel, id, Buy, 0, 0, 0);
      && Filled(s'.fills, id) == Filled(s.fills, id) + o.remaining as real
      && Spent(s'.fills, id) == Spent(s.fills, id) + Paid(o.remaining as real, o.price)
  {
    var open, added := Open(ids, s.resting, objs), s'.fills[|s.fills|..];
    assert s'.fills == s.fills + added;
    PaidConcat(s.fills, added, id);
    OnePaidEach(added, open, s.resting, objs, id);
    PaidNothing(objs, s.resting, id);
  }

  lemma MinusNone<V>(m: map<nat, V>)
    ensures m - {} == m
  {
  }

  lemma MinusTwice<V>(m: map<nat, V>, x: nat)
    ensures m - {x} - {x} == m - {x}
  {
  }

  lemma MinusOne<V>(m: map<nat, V>, s: set<nat>, x: nat)
    ensures m - s - {x} == m - (s + {x})
  {
  }

  /** Cancels under way, with the orders they are for. */
  datatype Cancelling = Cancelling(pending: map<nat, int>, resting: map<nat, Resting>, book: Book)

  function LapseOne(c: Cancelling, id: nat): Cancelling {
    Cancelling(c.pending - {id}, c.resting - {id}, Cancel(c.book, id))
  }

  function Lapse(c: Cancelling, ids: set<nat>): Cancelling {
    Cancelling(c.pending - ids, c.resting - ids, CancelAll(c.book, ids))
  }

  lemma {:induction false} LapseNone(c: Cancelling)
    requires Wf(c.book)
    ensures Lapse(c, {}) == c
  {
    MinusNone(c.pending);
    MinusNone(c.resting);
    CancelNone(c.book);
  }

  lemma {:induction false} LapseMore(c: Cancelling, ids: set<nat>, id: nat)
    ensures LapseOne(Lapse(c, ids), id) == Lapse(c, ids + {id})
  {
    MinusOne(c.pending, ids, id);
    MinusOne(c.resting, ids, id);
    CancelOneMore(c.book, ids, id);
  }

  lemma {:induction false} LegsHead(trs: seq<Trade>, rest: seq<TradeInfo>, i: nat)
    requires i < |trs|
    ensures Legs(trs[i..]) + rest == [trs[i].bid, trs[i].ask] + (Legs(trs[i + 1..]) + rest)
  {
    assert trs[i..][1..] == trs[i + 1..];
  }

  lemma {:induction false} LegsStep(trs: seq<Trade>, later: seq<Trade>, i: nat)
    requires i < |trs|
    ensures Legs(trs[i..] + later) == [trs[i].bid] + ([trs[i].ask] + Legs(trs[i + 1..] + later))
  {
    var s := trs[i..] + later;
    assert s[0] == trs[i] && s[1..] == trs[i + 1..] + later;
    assert [trs[i].bid, trs[i].ask] + Legs(s[1..]) == [trs[i].bid] + ([trs[i].ask] + Legs(s[1..]));
  }
}
