/** The book as the program keeps it: level vectors, pool nodes, the free list, the id index
    and the store of order objects, updated in place. Every operation keeps the whole
    invariant of module BookMemory and does to the represented book what PriceTimeBook says.
 */
module OrderBook {
  import opened PriceTimeBook
  import opened BookTheorems
  import opened NodeLists
  import opened BookMemory
  import opened BookIndex

  const NODE_BLOCK_SIZE: nat := 4096

  class OrderBook {
    var pool: seq<Node>
    var objs: seq<Order>
    var freeNodes: Ptr
    var bidLevels: seq<PriceLevel>
    var askLevels: seq<PriceLevel>
    var orderMap: map<nat, nat>
    ghost var threads: Threads

    ghost function Mem(): Memory
      reads this
    {
      Memory(pool, objs, freeNodes, bidLevels, askLevels, orderMap)
    }

    ghost predicate Valid()
      reads this
    {
      Ok(Mem(), threads, {})
    }

    /** The book this object represents. */
    ghost function View(): Book
      reads this
    {
      if |bidLevels| == |threads.bids| && |askLevels| == |threads.asks| then Abstract(Mem(), threads) else Book([], [])
    }

    function Levels(s: Side): seq<PriceLevel>
      reads this
    {
      if s == Buy then bidLevels else askLevels
    }

    constructor ()
      ensures Valid() && View() == Book([], [])
      ensures objs == [] && orderMap == map[]
    {
      pool, objs, freeNodes := [], [], Null;
      bidLevels, askLevels, orderMap := [], [], map[];
      threads := Threads([], [], []);
    }

    method SetLevels(s: Side, levels: seq<PriceLevel>)
      modifies this
      ensures Mem() == old(Mem()).With(s, levels) && threads == old(threads)
    {
      if s == Buy {
        bidLevels := levels;
      } else {
        askLevels := levels;
      }
    }

    /** `create_order`: a new order object, not yet in the book. */
    method CreateOrder(kind: OrderType, id: nat, side: Side, price: int, qty: nat) returns (p: nat)
      requires Valid()
      modifies this
      ensures Valid() && View() == old(View())
      ensures p == |old(objs)| && objs == old(objs) + [Order(kind, id, side, price, qty, qty)]
      ensures Mem() == old(Mem()).(objs := objs)
    {
      p := |objs|;
      ghost var m := Mem();
      objs := objs + [Order(kind, id, side, price, qty, qty)];
      MoreObjects(m, threads, {}, objs);
    }

    /** `alloc_node`: take the first free node, threading a fresh block when there is none. */
    method AllocNode() returns (n: nat)
      requires Valid()
      modifies this
      ensures Ok(Mem(), threads, {n}) && Abstract(Mem(), threads) == old(View())
      ensures n < |pool| && pool[n] == Node(Null, Null, Null)
      ensures objs == old(objs) && orderMap == old(orderMap)
      ensures |old(pool)| <= |pool|
      ensures forall k :: 0 <= k < |old(pool)| && old(pool)[k].order.Ref? ==> pool[k] == old(pool)[k]
      ensures bidLevels == old(bidLevels) && askLevels == old(askLevels)
    {
      if freeNodes.Null? {
        var i := 0;
        while i < NODE_BLOCK_SIZE
          invariant i <= NODE_BLOCK_SIZE
          invariant Valid() && View() == old(View())
          invariant |old(pool)| <= |pool| && pool[..|old(pool)|] == old(pool)
          invariant i > 0 ==> freeNodes.Ref?
          invariant objs == old(objs) && orderMap == old(orderMap)
          invariant bidLevels == old(bidLevels) && askLevels == old(askLevels)
        {
          ghost var m, t := Mem(), threads;
          pool, freeNodes := pool + [Node(Null, freeNodes, Null)], Ref(|pool|);
          threads := threads.(free := [|m.pool|] + threads.free);
          GrowKeepsOk(m, t, Mem(), threads);
          i := i + 1;
        }
      }
      n := freeNodes.at;
      ghost var m, t := Mem(), threads;
      assert t.free[0] == n && m.pool[t.free[0]].order.Null?;
      freeNodes := pool[n].next;
      pool := pool[n := Node(Null, Null, Null)];
      threads := threads.(free := threads.free[1..]);
      PopKeepsOk(m, t, Mem(), threads);
    }
  
    /** `lower_bound`: the first level that does not rank strictly ahead of `price`. */
    method FindSlot(s: Side, price: int) returns (i: nat)
      requires LevelsSorted(Levels(s), s)
      ensures SlotAt(Levels(s), s, i, price)
    {
      var levels := Levels(s);
      var hi := |levels|;
      i := 0;
      while i < hi
        invariant i <= hi <= |levels|
        invariant forall k :: 0 <= k < i ==> Better(s, levels[k].price, price)
        invariant hi < |levels| ==> !Better(s, levels[hi].price, price)
      {
        var mid := (i + hi) / 2;
        if Better(s, levels[mid].price, price) {
          i := mid + 1;
        } else {
          hi := mid;
        }
      }
    }

    /** Give node `n` its order and append it to the level at index `i`, opening the level when it
        is missing; enter the order in the index. */
    method LinkNode(s: Side, i: nat, n: nat, p: nat)
      requires n < |pool| && p < |objs| && i <= |Levels(s)|
      requires var lv := JoinedLevel(Levels(s), i, objs[p].price); lv.tail.Ref? ==> lv.tail.at < |pool|
      modifies this
      ensures Mem() == InsertedMemory(old(Mem()), s, i, n, p)
    {
      var o := objs[p];
      var levels := Levels(s);
      pool := pool[n := pool[n].(order := Ref(p), next := Null, prev := Null)];
      if i < |levels| && levels[i].price == o.price {
        pool := AppendPool(pool, levels[i], n);
        levels := levels[i := AppendLevel(levels[i], n, o.remaining)];
      } else {
        var lv := PriceLevel(o.price, 0, Null, Null);
        pool := AppendPool(pool, lv, n);
        levels := levels[..i] + [AppendLevel(lv, n, o.remaining)] + levels[i..];
      }
      orderMap := orderMap[o.id := n];
      SetLevels(s, levels);
    }

    /** The steps that put an accepted order into the book: `alloc_node`, `find_or_insert_level`,
        `append` and the entry in `order_map_`. */
    method Insert(p: nat)
      requires Valid() && p < |objs| && objs[p].id !in orderMap
      modifies this
      ensures Valid()
      ensures objs == old(objs)
      ensures View() == old(View()).With(objs[p].side, Rest(old(View()).Of(objs[p].side), objs[p]))
      ensures orderMap.Keys == old(orderMap).Keys + {objs[p].id}
      ensures ObjectOf(Mem(), objs[p].id) == p
      ensures SameObjects(old(Mem()), Mem(), old(orderMap).Keys)
    {
      ghost var m0 := Mem();
      var n := AllocNode();
      var i := FindSlot(objs[p].side, objs[p].price);
      ghost var m, t := Mem(), threads;
      JoinedTail(m, t, objs[p].side, i, objs[p].price);
      LinkNode(objs[p].side, i, n, p);
      threads := InsertedThreads(m, t, objs[p].side, i, n, objs[p].price);
      InsertStep(m0, m, t, i, n, p, Mem(), threads);
    }
  
    /** `price_level::remove`, the erasure from `order_map_`, `free_node` and the erasure of an
        emptied level. */
    method UnlinkNode(s: Side, l: nat, n: nat)
      requires l < |Levels(s)| && RemoveDefinedFor(pool, n) && HasOrder(pool, objs, n)
      requires OrderAt(pool, objs, n).remaining <= Levels(s)[l].total
      modifies this
      ensures Mem() == RemovedMemory(old(Mem()), s, l, n, OrderAt(old(pool), old(objs), n))
    {
      var o := objs[pool[n].order.at];
      var levels := Levels(s);
      var lv := RemoveLevel(pool, levels[l], n, o.remaining);
      pool := RemovePool(pool, n);
      orderMap := orderMap - {o.id};
      pool := pool[n := pool[n].(order := Null, prev := Null, next := freeNodes)];
      freeNodes := Ref(n);
      if lv.head.Null? {
        levels := levels[..l] + levels[l + 1..];
      } else {
        levels := levels[l := lv];
      }
      SetLevels(s, levels);
    }

    method Unlink(s: Side, l: nat, n: nat, ghost k: nat)
      requires Valid() && NodeAt(threads, s, l, k, n)
      modifies this
      ensures Valid()
      ensures HasOrder(old(pool), old(objs), n)
      ensures l < |old(View()).Of(s)| && k < |old(View()).Of(s)[l].orders|
      ensures View() == old(View()).With(s, RemoveAt(old(View()).Of(s), l, k))
      ensures objs == old(objs)
      ensures orderMap == old(orderMap) - {OrderAt(old(pool), old(objs), n).id}
      ensures SameObjects(old(Mem()), Mem(), orderMap.Keys)
      ensures threads.Of(s.Opposite()) == old(threads).Of(s.Opposite())
    {
      ghost var m, t := Mem(), threads;
      RemoveStep(m, t, s, l, k, n);
      UnlinkNode(s, l, n);
      threads := RemovedThreads(t, s, l, k);
      assert Mem() == RemovedMemory(m, s, l, n, OrderAt(m.pool, m.objs, n));
    }

    /** Fill the front order of a side and lower the level's cached total. */
    method FillNode(s: Side, n: nat, qty: nat)
      requires HasOrder(pool, objs, n) && qty <= OrderAt(pool, objs, n).remaining
      requires Mem().Of(s) != [] && qty <= Mem().Of(s)[0].total
      modifies this
      ensures Mem() == FilledMemory(old(Mem()), s, n, qty)
      ensures threads == old(threads)
    {
      objs := FilledObjects(objs, pool[n].order.at, qty);
      var levels := Levels(s);
      SetLevels(s, levels[0 := levels[0].(total := levels[0].total - qty)]);
    }

    method Fill(s: Side, n: nat, qty: nat)
      requires Valid() && NodeAt(threads, s, 0, 0, n)
      requires HasOrder(pool, objs, n) && qty <= OrderAt(pool, objs, n).remaining
      modifies this
      ensures Valid() && threads == old(threads)
      ensures var levels := old(View()).Of(s);
              && levels != [] && levels[0].orders != [] && qty <= levels[0].orders[0].remaining
              && View() == old(View()).With(s, FillFront(levels, qty))
      ensures pool == old(pool) && orderMap == old(orderMap)
      ensures objs == FilledObjects(old(objs), pool[n].order.at, qty)
    {
      ghost var m := Mem();
      NodeDefined(m, threads, s, 0, 0, n);
      FillNode(s, n, qty);
      FillStep(m, threads, s, n, qty, Mem());
    }
  
    /** The first node of the first level of a side. */
    method FrontNode(s: Side) returns (n: nat)
      requires Valid() && Levels(s) != []
      ensures NodeAt(threads, s, 0, 0, n) && HasOrder(pool, objs, n)
      ensures var levels := View().Of(s);
              levels != [] && levels[0].orders != [] && levels[0].orders[0] == OrderAt(pool, objs, n)
              && levels[0].price == Levels(s)[0].price
    {
      ghost var q := threads.Of(s)[0];
      OkSide(Mem(), threads, {}, s);
      assert LevelOk(pool, objs, s, Levels(s)[0], q);
      NodeDefined(Mem(), threads, s, 0, 0, q[0]);
      n := Levels(s)[0].head.at;
    }

    /** Drop a front order that is filled. */
    method DropFilled(s: Side, n: nat, remaining: nat)
      requires Valid() && NodeAt(threads, s, 0, 0, n) && HasOrder(pool, objs, n)
      requires remaining == OrderAt(pool, objs, n).remaining
      modifies this
      ensures Valid() && objs == old(objs)
      ensures var levels := old(View()).Of(s);
              && levels != [] && levels[0].orders != []
              && View() == old(View()).With(s, if remaining == 0 then RemoveAt(levels, 0, 0) else levels)
      ensures SameObjects(old(Mem()), Mem(), orderMap.Keys)
      ensures threads.Of(s.Opposite()) == old(threads).Of(s.Opposite())
      ensures orderMap == if remaining == 0 then old(orderMap) - {OrderAt(old(pool), objs, n).id} else old(orderMap)
    {
      NodeDefined(Mem(), threads, s, 0, 0, n);
      if remaining == 0 {
        Unlink(s, 0, n, 0);
      }
    }
  
    /** The two fills of one pass of the matching loop. */
    method FillFronts(b: nat, a: nat, q: nat, ghost t: Trade)
      requires Valid() && NodeAt(threads, Buy, 0, 0, b) && NodeAt(threads, Sell, 0, 0, a)
      requires HasOrder(pool, objs, b) && HasOrder(pool, objs, a)
      requires q <= OrderAt(pool, objs, b).remaining && q <= OrderAt(pool, objs, a).remaining
      requires t.bid.qty == q == t.ask.qty
      requires t.bid.id == OrderAt(pool, objs, b).id && t.ask.id == OrderAt(pool, objs, a).id
      modifies this
      ensures Valid() && threads == old(threads) && pool == old(pool) && orderMap == old(orderMap)
      ensures var bids, asks := old(View()).bids, old(View()).asks;
              && bids != [] && bids[0].orders != [] && q <= bids[0].orders[0].remaining
              && asks != [] && asks[0].orders != [] && q <= asks[0].orders[0].remaining
              && View() == Book(FillFront(bids, q), FillFront(asks, q))
      ensures |objs| == |old(objs)|
      ensures OrderAt(pool, objs, b).remaining == OrderAt(old(pool), old(objs), b).remaining - q
      ensures OrderAt(pool, objs, a).remaining == OrderAt(old(pool), old(objs), a).remaining - q
      ensures FilledBy(old(Mem()), objs, [t])
    {
      ghost var m := Mem();
      FrontObjects(m, threads, b, a);
      Fill(Buy, b, q);
      Fill(Sell, a, q);
      FilledByPair(m, t, objs);
    }

    /** The two removals of one pass of the matching loop. */
    method DropFronts(b: nat, a: nat, bidLeft: nat, askLeft: nat)
      requires Valid() && NodeAt(threads, Buy, 0, 0, b) && NodeAt(threads, Sell, 0, 0, a)
      requires HasOrder(pool, objs, b) && bidLeft == OrderAt(pool, objs, b).remaining
      requires HasOrder(pool, objs, a) && askLeft == OrderAt(pool, objs, a).remaining
      modifies this
      ensures Valid() && objs == old(objs)
      ensures var bids, asks := old(View()).bids, old(View()).asks;
              && bids != [] && bids[0].orders != [] && asks != [] && asks[0].orders != []
              && View() == Book(if bidLeft == 0 then RemoveAt(bids, 0, 0) else bids,
                                if askLeft == 0 then RemoveAt(asks, 0, 0) else asks)
      ensures SameObjects(old(Mem()), Mem(), orderMap.Keys)
    {
      ghost var m := Mem();
      NodeDefined(m, threads, Sell, 0, 0, a);
      DropFilled(Buy, b, bidLeft);
      ghost var m1 := Mem();
      NodeDefined(m1, threads, Sell, 0, 0, a);
      DropFilled(Sell, a, askLeft);
      SameObjectsChain(m, m1, Mem());
    }

    /** Both fills and both removals. */
    method TradeFronts(b: nat, a: nat, q: nat, ghost t: Trade)
      requires Valid() && NodeAt(threads, Buy, 0, 0, b) && NodeAt(threads, Sell, 0, 0, a)
      requires HasOrder(pool, objs, b) && HasOrder(pool, objs, a)
      requires q <= OrderAt(pool, objs, b).remaining && q <= OrderAt(pool, objs, a).remaining
      requires t.bid.qty == q == t.ask.qty
      requires t.bid.id == OrderAt(pool, objs, b).id && t.ask.id == OrderAt(pool, objs, a).id
      modifies this
      ensures Valid()
      ensures var bids, asks := old(View()).bids, old(View()).asks;
              && bids != [] && bids[0].orders != [] && q <= bids[0].orders[0].remaining
              && asks != [] && asks[0].orders != [] && q <= asks[0].orders[0].remaining
              && View() == Book(ReduceFront(bids, q), ReduceFront(asks, q))
      ensures FilledBy(old(Mem()), objs, [t])
      ensures SameObjects(old(Mem()), Mem(), orderMap.Keys)
    {
      var bidLeft := objs[pool[b].order.at].remaining - q;
      var askLeft := objs[pool[a].order.at].remaining - q;
      ghost var m := Mem();
      NodeDefined(m, threads, Buy, 0, 0, b);
      NodeDefined(m, threads, Sell, 0, 0, a);
      FillFronts(b, a, q, t);
      ghost var m1 := Mem();
      DropFronts(b, a, bidLeft, askLeft);
      SameObjectsAs(m, m1, Mem());
    }

    /** The front orders of both sides. */
    method FrontPair() returns (b: nat, a: nat, bid: Order, ask: Order)
      requires Valid() && bidLevels != [] && askLevels != []
      ensures NodeAt(threads, Buy, 0, 0, b) && NodeAt(threads, Sell, 0, 0, a)
      ensures HasOrder(pool, objs, b) && HasOrder(pool, objs, a)
      ensures bid == OrderAt(pool, objs, b) && ask == OrderAt(pool, objs, a)
      ensures bid.id in orderMap && ask.id in orderMap
      ensures var v := View();
              && v.bids != [] && v.bids[0].price == bidLevels[0].price && v.bids[0].orders != []
              && v.bids[0].orders[0] == bid
              && v.asks != [] && v.asks[0].price == askLevels[0].price && v.asks[0].orders != []
              && v.asks[0].orders[0] == ask
    {
      b := FrontNode(Buy);
      a := FrontNode(Sell);
      FrontObjects(Mem(), threads, b, a);
      bid, ask := objs[pool[b].order.at], objs[pool[a].order.at];
    }

    /** One pass of the matching loop. */
    method MatchPass() returns (t: Trade)
      requires Valid() && bidLevels != [] && askLevels != [] && bidLevels[0].price >= askLevels[0].price
      modifies this
      ensures Valid()
      ensures var v := old(View());
              && Crossed(v) && v.bids[0].orders != [] && v.asks[0].orders != []
              && t == FrontTrade(v) && View() == MatchOnce(v)
      ensures FilledBy(old(Mem()), objs, [t])
      ensures t.bid.id in old(orderMap) && t.ask.id in old(orderMap)
      ensures SameObjects(old(Mem()), Mem(), orderMap.Keys)
    {
      var b, a, bid, ask := FrontPair();
      var q := Min(bid.remaining, ask.remaining);
      t := Trade(TradeInfo(bid.id, bid.price, q), TradeInfo(ask.id, ask.price, q));
      TradeFronts(b, a, q, t);
    }
  
    /** `cancel_order`; an id that is not in the book is ignored. */
    method CancelOrder(id: nat)
      requires Valid()
      modifies this
      ensures Valid() && View() == Cancel(old(View()), id)
      ensures objs == old(objs) && orderMap == old(orderMap) - {id}
      ensures SameObjects(old(Mem()), Mem(), orderMap.Keys)
    {
      if id !in orderMap {
        CancelMissing(Mem(), threads, id);
        assert orderMap - {id} == orderMap;
        return;
      }
      ghost var l0, k := PositionOfNode(Mem(), threads, {}, id);
      var n := orderMap[id];
      var o := objs[pool[n].order.at];
      var l := FindLevel(o.side, o.price, l0);
      CancelAt(Mem(), threads, o.side, id, l, l0, k);
      Unlink(o.side, l, n, k);
    }

    /** The scan for the level at a price that the side has. */
    method FindLevel(s: Side, price: int, ghost l0: nat) returns (l: nat)
      requires l0 < |Levels(s)| && Levels(s)[l0].price == price
      ensures l < |Levels(s)| && Levels(s)[l].price == price
    {
      var levels := Levels(s);
      l := 0;
      while levels[l].price != price
        invariant l <= l0
        decreases l0 - l
      {
        l := l + 1;
      }
    }

    /** The matching loop of `match_orders`. */
    method MatchLoop() returns (trades: seq<Trade>)
      requires Valid()
      modifies this
      ensures Valid()
      ensures Matched(trades, View()) == Match(old(View()))
      ensures FilledBy(old(Mem()), objs, trades)
      ensures SameObjects(old(Mem()), Mem(), orderMap.Keys)
    {
      trades := [];
      ghost var m0, whole := Mem(), Match(View());
      FilledByNothing(m0);
      while bidLevels != [] && askLevels != [] && bidLevels[0].price >= askLevels[0].price
        invariant Valid()
        invariant whole == Matched(trades + Match(View()).trades, Match(View()).book)
        invariant FilledBy(m0, objs, trades)
        invariant SameObjects(m0, Mem(), orderMap.Keys)
        decreases Count(View().bids) + Count(View().asks)
      {
        ghost var m, v := Mem(), View();
        var t := MatchPass();
        MatchProgress(whole, v, View(), trades);
        FilledByNext(m0, m, objs, trades, t);
        SameObjectsChain(m0, m, Mem());
        trades := trades + [t];
      }
      MatchDone(Mem(), threads);
    }

    /** Cancel the front order of a side when it must not rest. */
    method CancelAggressive(s: Side)
      requires Valid()
      modifies this
      ensures Valid() && View() == old(View()).With(s, DropAggressive(old(View()).Of(s)))
      ensures objs == old(objs)
      ensures SameObjects(old(Mem()), Mem(), orderMap.Keys)
    {
      SidePrices(Mem(), threads);
      if Levels(s) != [] {
        var n := FrontNode(s);
        if Aggressive(objs[pool[n].order.at]) {
          Unlink(s, 0, n, 0);
        }
      }
    }

    /** `match_orders` */
    method MatchOrders() returns (trades: seq<Trade>)
      requires Valid()
      modifies this
      ensures Valid()
      ensures Matched(trades, View()) == MatchAndDrop(old(View()))
      ensures FilledBy(old(Mem()), objs, trades)
      ensures SameObjects(old(Mem()), Mem(), orderMap.Keys)
    {
      ghost var m0 := Mem();
      trades := MatchLoop();
      ghost var m1 := Mem();
      CancelAggressive(Buy);
      ghost var m2 := Mem();
      CancelAggressive(Sell);
      SameObjectsChain(m0, m1, m2);
      SameObjectsChain(m0, m2, Mem());
    }
  
    /** `can_match` */
    predicate LevelsCanMatch(s: Side, price: int)
      reads this
    {
      var contra := Levels(s.Opposite());
      contra != [] && Crosses(s, price, contra[0].price)
    }

    /** The quantity a fill-or-kill order can reach, added up from the cached level totals. */
    method Reachable(s: Side, price: int) returns (available: nat)
      requires Valid()
      ensures available == Available(View().Of(s.Opposite()), s, price)
    {
      var contra := Levels(s.Opposite());
      ghost var abs := View().Of(s.Opposite());
      SidePrices(Mem(), threads);
      available := 0;
      var l := 0;
      assert abs[..0] == [];
      while l < |contra|
        invariant l <= |contra| == |abs|
        invariant available == Available(abs[..l], s, price)
      {
        AvailableNext(abs, s, price, l);
        if Crosses(s, price, contra[l].price) {
          available := available + contra[l].total;
        }
        l := l + 1;
      }
      assert abs[..l] == abs;
    }

    /** The checks before insertion. */
    method CheckOrder(p: nat) returns (ok: bool)
      requires Valid() && p < |objs|
      ensures ok <==> Accepts(View(), objs[p])
    {
      var o := objs[p];
      IndexedIffPresent(Mem(), threads, {}, o.id);
      SidePrices(Mem(), threads);
      assert LevelsCanMatch(o.side, o.price) <==> CanMatch(View(), o.side, o.price);
      if o.id in orderMap {
        return false;
      }
      if o.kind == FillOrKill {
        if !LevelsCanMatch(o.side, o.price) {
          return false;
        }
        var available := Reachable(o.side, o.price);
        if available < o.remaining {
          return false;
        }
      }
      if o.kind == ImmediateOrCancel && !LevelsCanMatch(o.side, o.price) {
        return false;
      }
      return true;
    }

    /** `add_order`: the trades and the book are those of `PriceTimeBook.AddOrder`; the objects that
        traded lost exactly what they traded. */
    method AddOrder(p: nat) returns (trades: seq<Trade>)
      requires Valid() && p < |objs|
      modifies this
      ensures Valid()
      ensures Matched(trades, View()) == PriceTimeBook.AddOrder(old(View()), old(objs)[p])
      ensures FilledByAdding(old(Mem()), objs, p, trades)
      ensures AddedOnly(old(Mem()), Mem(), old(objs)[p].id, p)
    {
      var ok := CheckOrder(p);
      ghost var m0 := Mem();
      IndexedIffPresent(m0, threads, {}, objs[p].id);
      if !ok {
        FilledByNothing(m0);
        return [];
      }
      Insert(p);
      ghost var m1 := Mem();
      trades := MatchOrders();
      AddedObjects(m0, m1, Mem(), p, trades);
    }
  
    /** A new order object that rests without being matched. */
    method CreateAndRest(kind: OrderType, id: nat, side: Side, price: int, qty: nat)
      requires Valid() && id !in orderMap
      modifies this
      ensures Valid() && objs == old(objs) + [Order(kind, id, side, price, qty, qty)]
      ensures View() == old(View()).With(side, Rest(old(View()).Of(side), Order(kind, id, side, price, qty, qty)))
      ensures orderMap.Keys == old(orderMap).Keys + {id}
      ensures SameObjects(old(Mem()), Mem(), old(orderMap).Keys)
    {
      ghost var m0 := Mem();
      var p := CreateOrder(kind, id, side, price, qty);
      ghost var m1 := Mem();
      Insert(p);
      SameObjectsFrom(m0, m1, Mem());
    }

    /** `create_order` followed by `add_order`. */
    method CreateAndAdd(kind: OrderType, id: nat, side: Side, price: int, qty: nat) returns (p: nat, trades: seq<Trade>)
      requires Valid()
      modifies this
      ensures Valid() && p == |old(objs)|
      ensures Matched(trades, View()) == PriceTimeBook.AddOrder(old(View()), Order(kind, id, side, price, qty, qty))
      ensures FilledByAdding(old(Mem()).(objs := old(objs) + [Order(kind, id, side, price, qty, qty)]), objs, p, trades)
      ensures AddedOnly(old(Mem()), Mem(), id, p)
    {
      ghost var m0 := Mem();
      p := CreateOrder(kind, id, side, price, qty);
      ghost var m1 := Mem();
      trades := AddOrder(p);
      AddedOnlyAs(m0, m1, Mem(), id, p);
    }

    /** `match_order`: cancel, then add a replacement of the same kind. */
    method MatchOrder(id: nat, side: Side, price: int, qty: nat) returns (trades: seq<Trade>)
      requires Valid()
      modifies this
      ensures Valid()
      ensures id !in old(orderMap) ==> trades == [] && View() == old(View())
      ensures id in old(orderMap) ==>
                && ObjectOf(old(Mem()), id) < |old(objs)|
                && var kind := old(objs)[ObjectOf(old(Mem()), id)].kind;
                   Matched(trades, View())
                   == PriceTimeBook.AddOrder(Cancel(old(View()), id), Order(kind, id, side, price, qty, qty))
    {
      if id !in orderMap {
        return [];
      }
      var kind := objs[pool[orderMap[id]].order.at].kind;
      CancelOrder(id);
      var p;
      p, trades := CreateAndAdd(kind, id, side, price, qty);
    }

    /** `modify_order`: the replacement rests at the back of its level and is not matched. */
    method ModifyOrder(id: nat, price: int, qty: nat) returns (found: bool)
      requires Valid()
      modifies this
      ensures Valid() && (found <==> id in old(orderMap))
      ensures !found ==> View() == old(View()) && objs == old(objs) && orderMap == old(orderMap)
                         && SameObjects(old(Mem()), Mem(), orderMap.Keys)
      ensures found ==>
                && ObjectOf(old(Mem()), id) < |old(objs)|
                && var was := old(objs)[ObjectOf(old(Mem()), id)];
                   var o := Order(was.kind, id, was.side, price, qty, qty);
                   && View() == Replace(old(View()), o)
                   && objs == old(objs) + [o]
                   && orderMap.Keys == old(orderMap).Keys
                   && SameObjects(old(Mem()), Mem(), orderMap.Keys - {id})
    {
      if id !in orderMap {
        return false;
      }
      ghost var m0 := Mem();
      var was := objs[pool[orderMap[id]].order.at];
      CancelOrder(id);
      ghost var m1 := Mem();
      CreateAndRest(was.kind, id, was.side, price, qty);
      ModifiedObjects(m0, m1, Mem(), id);
      return true;
    }

    /** `get_order_infos`, one side: the levels with a positive cached total. */
    method LevelInfos(s: Side) returns (infos: seq<(int, nat)>)
      requires Valid()
      ensures infos == Depth(View().Of(s))
    {
      var levels := Levels(s);
      ghost var abs := View().Of(s);
      SidePrices(Mem(), threads);
      infos := [];
      var l := 0;
      assert abs[..0] == [];
      while l < |levels|
        invariant l <= |levels| == |abs|
        invariant infos == Depth(abs[..l])
      {
        DepthNext(abs, l);
        if levels[l].total > 0 {
          infos := infos + [(levels[l].price, levels[l].total)];
        }
        l := l + 1;
      }
      assert abs[..l] == abs;
    }

    /** The loop of `clear`: every indexed node returns to the free list. */
    method FreeAll()
      requires FreeOk(pool, freeNodes, threads.free, {}) && IndexOk(pool, objs, orderMap)
      modifies this
      ensures FreeOk(pool, freeNodes, threads.free, {}) && objs == old(objs)
      ensures forall n :: 0 <= n < |pool| ==> pool[n].order.Null?
    {
      var todo := orderMap;
      while todo.Keys != {}
        invariant FreeOk(pool, freeNodes, threads.free, {})
        invariant IndexOk(pool, objs, todo)
        invariant objs == old(objs)
        decreases |todo|
      {
        var id :| id in todo.Keys;
        ghost var was, free := pool, freeNodes;
        FreedStep(was, free, threads.free, objs, todo, id);
        FreeNode(todo[id]);
        threads := threads.(free := [todo[id]] + threads.free);
        todo := todo - {id};
      }
      assert todo == map[];
    }

    /** `free_node` */
    method FreeNode(n: nat)
      requires n < |pool|
      modifies this
      ensures pool == old(pool)[n := Node(Null, old(freeNodes), Null)] && freeNodes == Ref(n)
      ensures objs == old(objs) && orderMap == old(orderMap) && threads == old(threads)
      ensures bidLevels == old(bidLevels) && askLevels == old(askLevels)
    {
      pool := pool[n := pool[n].(order := Null, prev := Null, next := freeNodes)];
      freeNodes := Ref(n);
    }

    /** `clear` */
    method Clear()
      requires Valid()
      modifies this
      ensures Valid() && View() == Book([], []) && objs == old(objs) && orderMap == map[]
    {
      FreeAll();
      orderMap := map[];
      bidLevels, askLevels := [], [];
      threads := threads.(bids := [], asks := []);
      EmptyOk(Mem(), threads);
    }

    /** The loop of `apply_l2_update` that empties the level at a price. */
    method DropLevel(s: Side, price: int)
      requires Valid()
      modifies this
      ensures Valid() && View() == old(View()).With(s, DropPrice(old(View()).Of(s), price))
      ensures objs == old(objs) && orderMap.Keys <= old(orderMap).Keys
      ensures SameObjects(old(Mem()), Mem(), orderMap.Keys)
    {
      var l := FirstAt(s, price);
      ghost var m0, v0 := Mem(), View();
      OnlyLevel(m0, threads, s, l, price);
      while l < |Levels(s)| && Levels(s)[l].price == price
        invariant Valid() && OnlyAt(View().Of(s), l, price)
        invariant View().Of(s.Opposite()) == v0.Of(s.Opposite())
        invariant DropPrice(View().Of(s), price) == DropPrice(v0.Of(s), price)
        invariant objs == m0.objs
        invariant SameObjects(m0, Mem(), orderMap.Keys)
        decreases Count(View().Of(s))
      {
        DropHead(s, l, price, m0);
      }
      DropPriceDone(Mem(), threads, s, l, price);
    }

    /** The scan for the level at a price. */
    method FirstAt(s: Side, price: int) returns (l: nat)
      ensures l <= |Levels(s)| && (l < |Levels(s)| ==> Levels(s)[l].price == price)
      ensures forall i :: 0 <= i < l ==> Levels(s)[i].price != price
    {
      l := 0;
      while l < |Levels(s)| && Levels(s)[l].price != price
        invariant l <= |Levels(s)|
        invariant forall i :: 0 <= i < l ==> Levels(s)[i].price != price
      {
        l := l + 1;
      }
    }

    method DropHead(s: Side, l: nat, price: int, ghost m0: Memory)
      requires Valid() && l < |Levels(s)| && Levels(s)[l].price == price && OnlyAt(View().Of(s), l, price)
      requires SameObjects(m0, Mem(), orderMap.Keys)
      modifies this
      ensures Valid() && OnlyAt(View().Of(s), l, price)
      ensures View().Of(s.Opposite()) == old(View()).Of(s.Opposite())
      ensures DropPrice(View().Of(s), price) == DropPrice(old(View()).Of(s), price)
      ensures Count(View().Of(s)) < Count(old(View()).Of(s))
      ensures objs == old(objs) && SameObjects(m0, Mem(), orderMap.Keys)
    {
      ghost var m := Mem();
      var n := HeadNode(s, l);
      DropPriceStep(m, threads, s, l, price);
      Unlink(s, l, n, 0);
      SameObjectsChain(m0, m, Mem());
    }

    method HeadNode(s: Side, l: nat) returns (n: nat)
      requires Valid() && l < |Levels(s)|
      ensures NodeAt(threads, s, l, 0, n)
    {
      ghost var q := threads.Of(s)[l];
      OkSide(Mem(), threads, {}, s);
      assert LevelOk(pool, objs, s, Levels(s)[l], q);
      n := Levels(s)[l].head.at;
    }

    /** `apply_l2_update`; `freshId` is the id the generator hands out. */
    method ApplyL2Update(s: Side, price: int, qty: nat, freshId: nat)
      requires Valid() && freshId !in orderMap
      modifies this
      ensures Valid() && View() == L2Update(old(View()), s, price, qty, freshId)
      ensures objs == if qty == 0 then old(objs) else old(objs) + [Order(GoodTillCancel, freshId, s, price, qty, qty)]
      ensures SameObjects(old(Mem()), Mem(), orderMap.Keys - {freshId})
    {
      ghost var m0 := Mem();
      DropLevel(s, price);
      ghost var m1 := Mem();
      if qty > 0 {
        CreateAndRest(GoodTillCancel, freshId, s, price, qty);
        InsertedAfter(m0, m1, Mem(), freshId);
      } else {
        assert orderMap.Keys - {freshId} == orderMap.Keys;
      }
    }
  
    /** One row of a snapshot; a row without a quantity is skipped. */
    method NextRow(s: Side, rows: seq<(int, nat)>, i: nat, lowId: nat, id: nat, ghost whole: seq<Level>, ghost ids: nat)
      returns (nextId: nat)
      requires Valid() && i < |rows| && RowsLeft(View().Of(s), orderMap.Keys, s, rows[i..], lowId, id, whole, ids)
      modifies this
      ensures Valid() && RowsLeft(View().Of(s), orderMap.Keys, s, rows[i + 1..], lowId, nextId, whole, ids)
      ensures View().Of(s.Opposite()) == old(View()).Of(s.Opposite()) && Extends(old(objs), objs)
    {
      if rows[i].1 == 0 {
        RowSkipped(View().Of(s), orderMap.Keys, s, rows, i, lowId, id, whole, ids);
        return id;
      }
      RowRested(View().Of(s), orderMap.Keys, s, rows, i, lowId, id, whole, ids);
      CreateAndRest(GoodTillCancel, id, s, rows[i].0, rows[i].1);
      nextId := id + 1;
    }

    /** One loop of `apply_l2_snapshot`. */
    method RestRows(s: Side, rows: seq<(int, nat)>, lowId: nat, firstId: nat) returns (nextId: nat)
      requires Valid() && lowId <= firstId && IdsWithin(orderMap.Keys, lowId, firstId)
      modifies this
      ensures Valid() && View() == old(View()).With(s, SnapshotSide(old(View()).Of(s), s, rows, firstId))
      ensures nextId == firstId + RowCount(rows) && IdsWithin(orderMap.Keys, lowId, nextId)
      ensures Extends(old(objs), objs)
    {
      nextId := firstId;
      ghost var whole, ids := SnapshotSide(View().Of(s), s, rows, firstId), firstId + RowCount(rows);
      var i := 0;
      assert rows[0..] == rows;
      while i < |rows|
        invariant i <= |rows| && Valid()
        invariant RowsLeft(View().Of(s), orderMap.Keys, s, rows[i..], lowId, nextId, whole, ids)
        invariant View().Of(s.Opposite()) == old(View()).Of(s.Opposite())
        invariant Extends(old(objs), objs)
      {
        ghost var objs1 := objs;
        nextId := NextRow(s, rows, i, lowId, nextId, whole, ids);
        ExtendsChain(old(objs), objs1, objs);
        i := i + 1;
      }
    }

    /** `apply_l2_snapshot`; the generator hands out ids from `firstId` on. */
    method ApplyL2Snapshot(bids: seq<(int, nat)>, asks: seq<(int, nat)>, firstId: nat)
      requires Valid()
      modifies this
      ensures Valid()
      ensures View() == Book(SnapshotSide([], Buy, bids, firstId),
                             SnapshotSide([], Sell, asks, firstId + RowCount(bids)))
      ensures Extends(old(objs), objs)
      ensures IdsWithin(orderMap.Keys, firstId, firstId + RowCount(bids) + RowCount(asks))
    {
      Clear();
      var nextId := RestRows(Buy, bids, firstId, firstId);
      ghost var objs1 := objs;
      nextId := RestRows(Sell, asks, firstId, nextId);
      ExtendsChain(old(objs), objs1, objs);
    }
  }
}
