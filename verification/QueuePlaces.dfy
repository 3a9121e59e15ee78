/** Where an order is in its queue, said without the steps that take it there: what each cancel model
    means, what a stream of trades leaves when the reported sizes are explained by it, and which orders
    a trade fills.
 */
module QueuePlaces {
  import opened QueueModel
  import opened QueueAware

  // ----- What the cancel models mean

  /** Cancelled volume was all ahead of the order as far as that goes, or not ahead of it at all, or
      ahead of it in proportion: then the order keeps its relative place in what is left of the level. */
  lemma {:induction false} AdvanceIs(ahead: real, total: real, cancels: real)
    requires 0.0 <= ahead && 0.0 < cancels <= total
    ensures Advance(Front, ahead, total, cancels) == if cancels <= ahead then ahead - cancels else 0.0
    ensures Advance(Back, ahead, total, cancels) == ahead
    ensures Advance(Uniform, ahead, total, cancels) * total == ahead * (total - cancels)
  {
    var r := ahead / total;
    assert r * total == ahead && r >= 0.0;
    assert cancels * r <= total * r by {
      assert (total - cancels) * r >= 0.0;
    }
    assert (ahead - cancels * r) * total == ahead * total - cancels * (r * total);
  }

  /** What is taken for cancelled: the part of a shrink beyond the trades since the last report. */
  lemma {:induction false} CancelsIs(lv: Level, size: real)
    requires lv.traded >= 0.0
    ensures Cancels(lv, size) == if lv.size - lv.traded > size then lv.size - lv.traded - size else 0.0
  {
  }

  // ----- Streams that trades explain

  /** The last reported size, and what was traded since, read off the stream. */
  function Reported(size: real, es: seq<Event>): real {
    if es == [] then size
    else if es[|es| - 1].Depth? then es[|es| - 1].size
    else Reported(size, es[..|es| - 1])
  }

  function Since(traded: real, es: seq<Event>): real {
    if es == [] then traded
    else
      match es[|es| - 1]
      case Depth(_) => 0.0
      case Trade(qty) => Since(traded, es[..|es| - 1]) + if qty > 0.0 then qty else 0.0
  }

  function Volume(es: seq<Event>): (v: real)
    ensures v >= 0.0
  {
    if es == [] then 0.0
    else Volume(es[..|es| - 1]) + if es[|es| - 1].Trade? && es[|es| - 1].qty > 0.0 then es[|es| - 1].qty else 0.0
  }

  lemma {:induction false} LevelIs(lv: Level, es: seq<Event>)
    ensures LevelAfter(lv, es) == Level(Reported(lv.size, es), Since(lv.traded, es))
    ensures lv.traded >= 0.0 ==> LevelAfter(lv, es).traded >= 0.0
    decreases |es|
  {
    if es != [] {
      LevelIs(lv, es[..|es| - 1]);
    }
  }

  /** No report shows less than trades since the last one account for. */
  predicate Explained(lv: Level, es: seq<Event>) {
    forall i :: 0 <= i < |es| && es[i].Depth? ==>
      es[i].size >= Reported(lv.size, es[..i]) - Since(lv.traded, es[..i])
  }

  lemma {:induction false} ExplainedPrefix(lv: Level, es: seq<Event>)
    requires es != [] && Explained(lv, es)
    ensures Explained(lv, es[..|es| - 1])
  {
    var n := |es| - 1;
    forall i | 0 <= i < n && es[..n][i].Depth?
      ensures es[..n][i].size >= Reported(lv.size, es[..n][..i]) - Since(lv.traded, es[..n][..i])
    {
      assert es[..n][..i] == es[..i] && es[i].Depth?;
    }
  }

  function Positive(x: real): real {
    if x > 0.0 then x else 0.0
  }

  /** The place after `volume` was traded: first what was ahead, then the order. */
  function PlaceFrom(p: Place, volume: real): Place {
    var got := Min(p.left, Positive(volume - p.ahead));
    Place(Positive(p.ahead - volume), p.left - got, p.filled + got)
  }

  lemma {:induction false} TradedFrom(p: Place, volume: real, qty: real)
    requires p.ahead >= 0.0 && p.left >= 0.0 && volume >= 0.0 && qty > 0.0
    ensures Traded(PlaceFrom(p, volume), qty) == PlaceFrom(p, volume + qty)
  {
  }

  /** As long as trades explain the reported sizes, all three models put an order at the same place: that
      of the traded volume alone. */
  lemma {:induction false} ExplainedAgree(m: Model, p: Place, lv: Level, es: seq<Event>)
    requires p.ahead >= 0.0 && p.left >= 0.0 && lv.traded >= 0.0 && Explained(lv, es)
    ensures PlaceAfter(m, p, lv, es) == PlaceFrom(p, Volume(es))
    decreases |es|
  {
    if es != [] {
      var n := |es| - 1;
      ExplainedPrefix(lv, es);
      ExplainedAgree(m, p, lv, es[..n]);
      LevelIs(lv, es[..n]);
      match es[n]
      case Trade(qty) =>
        if qty > 0.0 {
          TradedFrom(p, Volume(es[..n]), qty);
        }
      case Depth(size) => CancelsIs(LevelAfter(lv, es[..n]), size);
    }
  }

  /** An order that joins a level is filled, on such a stream, with what was traded beyond the size it
      joined behind. */
  lemma {:induction false} JoinedIsFilled(m: Model, lv: Level, qty: real, es: seq<Event>)
    requires lv.size >= 0.0 && qty >= 0.0 && lv.traded >= 0.0 && Explained(lv, es)
    ensures PlaceAfter(m, Join(lv, qty), lv, es).filled == Min(qty, Positive(Volume(es) - lv.size))
  {
    ExplainedAgree(m, Join(lv, qty), lv, es);
  }

  // ----- A trade over all orders

  predicate Here(orders: map<nat, Paper>, id: nat, symbol: string, price: int) {
    id in orders && orders[id].key.symbol == symbol && orders[id].key.price == price
  }

  /** A fill of an order that rests at the traded price, for no more than was left of it. */
  predicate FillFits(f: Fill, orders: map<nat, Paper>, symbol: string, price: int) {
    Here(orders, f.id, symbol, price) && f.price == price && 0.0 < f.qty <= orders[f.id].place.left
  }

  /** What a sweep has come to, from `orders`, after the turns of `ids`. */
  ghost predicate Swept(orders: map<nat, Paper>, t: Sweep, ids: seq<nat>, symbol: string, price: int) {
    && t.left >= 0.0 && Sane(t.orders)
    && (forall i :: 0 <= i < |t.fills| ==> FillFits(t.fills[i], orders, symbol, price))
    && (forall j :: j in t.orders ==> j in orders && t.orders[j].key == orders[j].key)
    && (forall j :: j in t.orders && j !in ids ==> t.orders[j] == orders[j])
    && (forall j :: j in orders && !Here(orders, j, symbol, price) ==> j in t.orders && t.orders[j] == orders[j])
    && (t.left > 0.0 ==> forall j :: j in ids ==> !Here(t.orders, j, symbol, price))
  }

  lemma {:induction false} TurnSweeps(orders: map<nat, Paper>, t: Sweep, ids: seq<nat>, id: nat, symbol: string,
                                      price: int)
    requires Swept(orders, t, ids, symbol, price) && id !in ids && t.left > 0.0
    requires forall j :: j in orders ==> orders[j].place.left > 0.0
    ensures Swept(orders, Turn(t, id, symbol, price), ids + [id], symbol, price)
  {
    if Here(t.orders, id, symbol, price) {
      var p := t.orders[id].place;
      assert t.orders[id] == orders[id];
    }
  }

  lemma {:induction false} EmptyTurn(orders: map<nat, Paper>, t: Sweep, ids: seq<nat>, id: nat, symbol: string,
                                     price: int)
    requires Swept(orders, t, ids, symbol, price) && id !in ids && t.left == 0.0
    ensures Swept(orders, Turn(t, id, symbol, price), ids + [id], symbol, price)
  {
  }

  /** A trade fills orders that rest at its symbol and price, at that price, and touches no others. If
      something of it is left over, none of the orders it came to is still there. */
  lemma {:induction false} TradeSweeps(orders: map<nat, Paper>, ids: seq<nat>, symbol: string, price: int, qty: real)
    requires Sane(orders) && qty >= 0.0 && (forall j :: j in orders ==> orders[j].place.left > 0.0)
    requires forall i, j :: 0 <= i < j < |ids| ==> ids[i] != ids[j]
    ensures Swept(orders, TradeOver(orders, ids, symbol, price, qty), ids, symbol, price)
    decreases |ids|
  {
    if ids != [] {
      var n := |ids| - 1;
      var t := TradeOver(orders, ids[..n], symbol, price, qty);
      TradeSweeps(orders, ids[..n], symbol, price, qty);
      assert ids == ids[..n] + [ids[n]];
      if t.left > 0.0 {
        TurnSweeps(orders, t, ids[..n], ids[n], symbol, price);
      } else {
        EmptyTurn(orders, t, ids[..n], ids[n], symbol, price);
      }
    }
  }

  // ----- The other steps

  /** A reported size moves the orders at that level and no others; the level starts afresh. */
  lemma {:induction false} DepthMovesOnly(m: Model, s: State, k: Key, size: real, id: nat, other: Key)
    ensures var s' := DepthStep(m, s, k, size);
      && (id in s'.orders <==> id in s.orders)
      && (id in s.orders && s.orders[id].key != k ==> s'.orders[id] == s.orders[id])
      && (id in s.orders ==>
            s'.orders[id].key == s.orders[id].key && s'.orders[id].place.left == s.orders[id].place.left)
      && LevelAt(s'.levels, other) == (if other == k then Level(size, 0.0) else LevelAt(s.levels, other))
      && s'.fills == s.fills
  {
  }

  /** An order joins behind the reported size of its level, or at the front of a level never reported. */
  lemma {:induction false} EntersBehind(s: State, id: nat, k: Key, qty: real)
    ensures var p := SubmitStep(s, id, k, qty).orders[id].place;
      && p.left == qty && p.filled == 0.0 && p.ahead == (if k in s.levels then s.levels[k].size else 0.0)
  {
  }

  /** An order that leaves is gone, and the others stay as they are. */
  lemma {:induction false} LeavesAlone(s: State, id: nat, other: nat)
    ensures var s' := LeaveStep(s, id);
      id !in s'.orders && (other != id ==> (other in s'.orders <==> other in s.orders))
      && (other != id && other in s.orders ==> s'.orders[other] == s.orders[other])
  {
  }

  /** A trade counts at both sides of its price and at no other level. */
  lemma {:induction false} TradeMarks(s: State, ids: seq<nat>, symbol: string, price: int, qty: real, k: Key)
    requires qty > 0.0
    ensures LevelAt(TradeStep(s, ids, symbol, price, qty).levels, k) ==
      Level(LevelAt(s.levels, k).size,
            LevelAt(s.levels, k).traded + if k.symbol == symbol && k.price == price then qty else 0.0)
  {
  }
}
