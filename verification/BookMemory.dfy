/** The whole memory of the book and the invariant that every operation keeps: both sides are
    sorted, non-empty, properly threaded levels with correct cached totals; the id index names
    exactly the linked nodes; and every pool node is either on the free list or linked in
    exactly one level.
 */
module BookMemory {
  import opened PriceTimeBook
  import opened BookTheorems
  import opened NodeLists

  datatype Memory = Memory(pool: seq<Node>, objs: seq<Order>, free: Ptr,
                           bids: seq<PriceLevel>, asks: seq<PriceLevel>, index: map<nat, nat>)
  {
    function Of(s: Side): seq<PriceLevel> {
      if s == Buy then bids else asks
    }

    function With(s: Side, levels: seq<PriceLevel>): Memory {
      if s == Buy then this.(bids := levels) else this.(asks := levels)
    }
  }

  /** The queues the pointers thread: one per level of each side, and the free list. */
  datatype Threads = Threads(free: seq<nat>, bids: seq<seq<nat>>, asks: seq<seq<nat>>)
  {
    ghost function Of(s: Side): seq<seq<nat>> {
      if s == Buy then bids else asks
    }

    ghost function With(s: Side, qs: seq<seq<nat>>): Threads {
      if s == Buy then this.(bids := qs) else this.(asks := qs)
    }
  }

  // ----- The invariant

  /** The free list threads exactly the nodes that carry no order and are not `held`. */
  ghost predicate FreeOk(pool: seq<Node>, free: Ptr, q: seq<nat>, held: set<nat>) {
    && Distinct(q)
    && free == At(q, 0)
    && (forall i :: 0 <= i < |q| ==> q[i] < |pool| && q[i] !in held)
    && (forall i {:trigger pool[q[i]]} :: 0 <= i < |q| ==> pool[q[i]] == Node(Null, At(q, i + 1), Null))
    && (forall n {:trigger n in q} :: 0 <= n < |pool| && pool[n].order.Null? && n !in held ==> n in q)
  }

  /** The index names exactly the nodes that carry an order. */
  ghost predicate IndexOk(pool: seq<Node>, objs: seq<Order>, index: map<nat, nat>) {
    && (forall id :: id in index ==> HasOrder(pool, objs, index[id]) && OrderAt(pool, objs, index[id]).id == id)
    && (forall n :: 0 <= n < |pool| && pool[n].order.Ref? ==>
          && HasOrder(pool, objs, n)
          && OrderAt(pool, objs, n).id in index
          && index[OrderAt(pool, objs, n).id] == n)
  }

  ghost predicate Linked(qs: seq<seq<nat>>, n: nat) {
    exists l :: 0 <= l < |qs| && n in qs[l]
  }

  /** Every node that carries an order is linked on that order's side. */
  ghost predicate PlacedOk(pool: seq<Node>, objs: seq<Order>, t: Threads) {
    forall n {:trigger Linked(t.Of(OrderAt(pool, objs, n).side), n)} ::
      0 <= n < |pool| && pool[n].order.Ref? ==> Linked(t.Of(OrderAt(pool, objs, n).side), n)
  }

  ghost predicate Ok(m: Memory, t: Threads, held: set<nat>) {
    && SideOk(m.pool, m.objs, Buy, m.bids, t.bids)
    && SideOk(m.pool, m.objs, Sell, m.asks, t.asks)
    && FreeOk(m.pool, m.free, t.free, held)
    && IndexOk(m.pool, m.objs, m.index)
    && PlacedOk(m.pool, m.objs, t)
  }

  /** The book a memory represents. */
  ghost function Abstract(m: Memory, t: Threads): Book
    requires |m.bids| == |t.bids| && |m.asks| == |t.asks|
  {
    Book(SideLevels(m.pool, m.objs, m.bids, t.bids), SideLevels(m.pool, m.objs, m.asks, t.asks))
  }

  ghost function AbstractSide(m: Memory, t: Threads, s: Side): seq<Level>
    requires |m.Of(s)| == |t.Of(s)|
  {
    SideLevels(m.pool, m.objs, m.Of(s), t.Of(s))
  }

  // ----- No node is in two places

  lemma {:induction false} LevelsDisjoint(pool: seq<Node>, objs: seq<Order>, s: Side, levels: seq<PriceLevel>,
                                          qs: seq<seq<nat>>, l: nat, i: nat)
    requires SideOk(pool, objs, s, levels, qs) && l < |qs| && i < |qs| && l != i
    ensures forall k, j :: 0 <= k < |qs[l]| && 0 <= j < |qs[i]| ==> qs[l][k] != qs[i][j]
  {
    assert LevelOk(pool, objs, s, levels[l], qs[l]);
    assert LevelOk(pool, objs, s, levels[i], qs[i]);
    assert levels[l].price != levels[i].price;
    forall k, j | 0 <= k < |qs[l]| && 0 <= j < |qs[i]|
      ensures qs[l][k] != qs[i][j]
    {
      assert OrderAt(pool, objs, qs[l][k]).price != OrderAt(pool, objs, qs[i][j]).price;
    }
  }

  lemma {:induction false} SidesDisjoint(m: Memory, t: Threads, held: set<nat>, s: Side, l: nat, i: nat)
    requires Ok(m, t, held) && l < |t.Of(s)| && i < |t.Of(s.Opposite())|
    ensures forall k, j :: 0 <= k < |t.Of(s)[l]| && 0 <= j < |t.Of(s.Opposite())[i]| ==>
              t.Of(s)[l][k] != t.Of(s.Opposite())[i][j]
  {
    var q, q' := t.Of(s)[l], t.Of(s.Opposite())[i];
    assert LevelOk(m.pool, m.objs, s, m.Of(s)[l], q);
    assert LevelOk(m.pool, m.objs, s.Opposite(), m.Of(s.Opposite())[i], q');
    forall k, j | 0 <= k < |q| && 0 <= j < |q'|
      ensures q[k] != q'[j]
    {
      assert OrderAt(m.pool, m.objs, q[k]).side != OrderAt(m.pool, m.objs, q'[j]).side;
    }
  }

  /** A change confined to the queue `changed` and to nodes that carry no order is not seen by a
      level whose queue shares no node with it. */
  lemma {:induction false} LevelSame(m: Memory, s: Side, lv: PriceLevel, q: seq<nat>, changed: seq<nat>,
                                     pool': seq<Node>, objs': seq<Order>)
    requires LevelOk(m.pool, m.objs, s, lv, q)
    requires forall k, j :: 0 <= k < |q| && 0 <= j < |changed| ==> q[k] != changed[j]
    requires forall n :: 0 <= n < |m.pool| && HasOrder(m.pool, m.objs, n) && n !in changed ==>
               SameAt(m.pool, m.objs, pool', objs', n)
    ensures SameOn(m.pool, m.objs, pool', objs', q)
  {
    forall k | 0 <= k < |q|
      ensures SameAt(m.pool, m.objs, pool', objs', q[k])
    {
      assert HasOrder(m.pool, m.objs, q[k]) && q[k] !in changed;
    }
  }

  /** A change confined to the queue `i` of side `s` and to nodes that carry no order leaves all
      other queues of both sides alone. */
  lemma {:induction false} OthersSame(m: Memory, t: Threads, held: set<nat>, s: Side, i: nat,
                                      pool': seq<Node>, objs': seq<Order>)
    requires Ok(m, t, held) && i < |t.Of(s)|
    requires forall n :: 0 <= n < |m.pool| && HasOrder(m.pool, m.objs, n) && n !in t.Of(s)[i] ==>
               SameAt(m.pool, m.objs, pool', objs', n)
    ensures forall l :: 0 <= l < |t.Of(s)| && l != i ==> SameOn(m.pool, m.objs, pool', objs', t.Of(s)[l])
    ensures SameSide(m.pool, m.objs, pool', objs', t.Of(s.Opposite()))
  {
    forall l | 0 <= l < |t.Of(s)| && l != i
      ensures SameOn(m.pool, m.objs, pool', objs', t.Of(s)[l])
    {
      LevelsDisjoint(m.pool, m.objs, s, m.Of(s), t.Of(s), l, i);
      LevelSame(m, s, m.Of(s)[l], t.Of(s)[l], t.Of(s)[i], pool', objs');
    }
    var o := s.Opposite();
    forall l | 0 <= l < |t.Of(o)|
      ensures SameOn(m.pool, m.objs, pool', objs', t.Of(o)[l])
    {
      SidesDisjoint(m, t, held, o, l, i);
      LevelSame(m, o, m.Of(o)[l], t.Of(o)[l], t.Of(s)[i], pool', objs');
    }
  }

  /** The same for a change of nodes only. */
  lemma {:induction false} OthersSameNodes(m: Memory, t: Threads, held: set<nat>, s: Side, i: nat, q: seq<nat>,
                                           pool': seq<Node>)
    requires Ok(m, t, held) && i < |t.Of(s)| && q == t.Of(s)[i] && |pool'| == |m.pool|
    requires forall n :: 0 <= n < |m.pool| && m.pool[n].order.Ref? && n !in q ==> pool'[n] == m.pool[n]
    ensures forall l :: 0 <= l < |t.Of(s)| && l != i ==> SameOn(m.pool, m.objs, pool', m.objs, t.Of(s)[l])
    ensures SameSide(m.pool, m.objs, pool', m.objs, t.Of(s.Opposite()))
  {
    forall n | 0 <= n < |m.pool| && HasOrder(m.pool, m.objs, n) && n !in q
      ensures SameAt(m.pool, m.objs, pool', m.objs, n)
    {
    }
    OthersSame(m, t, held, s, i, pool', m.objs);
  }

  lemma {:induction false} AllSame(m: Memory, t: Threads, held: set<nat>, pool': seq<Node>, objs': seq<Order>)
    requires Ok(m, t, held)
    requires forall n :: 0 <= n < |m.pool| && HasOrder(m.pool, m.objs, n) ==> SameAt(m.pool, m.objs, pool', objs', n)
    ensures SameSide(m.pool, m.objs, pool', objs', t.bids) && SameSide(m.pool, m.objs, pool', objs', t.asks)
  {
    forall l | 0 <= l < |t.bids|
      ensures SameOn(m.pool, m.objs, pool', objs', t.bids[l])
    {
      assert LevelOk(m.pool, m.objs, Buy, m.bids[l], t.bids[l]);
    }
    forall l | 0 <= l < |t.asks|
      ensures SameOn(m.pool, m.objs, pool', objs', t.asks[l])
    {
      assert LevelOk(m.pool, m.objs, Sell, m.asks[l], t.asks[l]);
    }
  }

  // ----- Totals

  lemma {:induction false} TotalAppend(orders: seq<Order>, o: Order)
    ensures Total(orders + [o]) == Total(orders) + o.remaining
  {
    if orders == [] {
      assert orders + [o] == [o];
    } else {
      assert (orders + [o])[1..] == orders[1..] + [o];
      TotalAppend(orders[1..], o);
    }
  }

  lemma {:induction false} TotalWithout(orders: seq<Order>, k: nat)
    requires k < |orders|
    ensures Total(orders) == Total(orders[..k] + orders[k + 1..]) + orders[k].remaining
  {
    var r := orders[..k] + orders[k + 1..];
    if k == 0 {
      assert r == orders[1..];
    } else {
      var tail := orders[1..];
      assert r[0] == orders[0] && r[1..] == tail[..k - 1] + tail[k..];
      TotalWithout(tail, k - 1);
    }
  }

  // ----- Appending a node

  ghost function AppendedPool(m: Memory, lv: PriceLevel, n: nat, p: nat): seq<Node>
    requires n < |m.pool| && (lv.tail.Ref? ==> lv.tail.at < |m.pool|)
  {
    AppendPool(m.pool[n := Node(Ref(p), Null, Null)], lv, n)
  }

  /** A level's queue may be empty only in a level that was just opened. */
  ghost predicate LevelOrNew(m: Memory, s: Side, lv: PriceLevel, q: seq<nat>) {
    if q == [] then lv == PriceLevel(lv.price, 0, Null, Null) else LevelOk(m.pool, m.objs, s, lv, q)
  }

  lemma {:induction false} AppendedThread(m: Memory, s: Side, lv: PriceLevel, q: seq<nat>, n: nat, p: nat)
    requires n < |m.pool| && m.pool[n].order.Null? && LevelOrNew(m, s, lv, q)
    ensures lv.tail.Ref? ==> lv.tail.at < |m.pool|
    ensures var pool' := AppendedPool(m, lv, n, p);
            && |pool'| == |m.pool|
            && n !in q
            && Chain(pool', q + [n])
            && (forall k :: 0 <= k < |m.pool| && k !in q && k != n ==> pool'[k] == m.pool[k])
            && (forall k :: 0 <= k < |m.pool| ==> pool'[k].order == if k == n then Ref(p) else m.pool[k].order)
  {
    var pool1 := m.pool[n := Node(Ref(p), Null, Null)];
    forall i | 0 <= i < |q|
      ensures q[i] != n
    {
      assert HasOrder(m.pool, m.objs, q[i]);
    }
    assert Chain(pool1, q);
    AppendChain(pool1, lv, q, n);
    AppendFrame(pool1, lv, q, n);
  }

  /** Orders are read through `order` fields only. */
  lemma {:induction false} AppendedOrders(pool: seq<Node>, pool': seq<Node>, objs: seq<Order>, q: seq<nat>, n: nat,
                                          p: nat)
    requires forall i :: 0 <= i < |q| ==> HasOrder(pool, objs, q[i])
    requires |pool'| == |pool| && n < |pool| && n !in q && p < |objs|
    requires forall k :: 0 <= k < |pool| ==> pool'[k].order == if k == n then Ref(p) else pool[k].order
    ensures QueueOrders(pool', objs, q + [n]) == QueueOrders(pool, objs, q) + [objs[p]]
    ensures forall i :: 0 <= i < |q + [n]| ==> HasOrder(pool', objs, (q + [n])[i])
  {
    var r := q + [n];
    forall i | 0 <= i < |r|
      ensures HasOrder(pool', objs, r[i])
      ensures OrderAt(pool', objs, r[i]) == (QueueOrders(pool, objs, q) + [objs[p]])[i]
    {
      if i < |q| {
        assert r[i] == q[i] && q[i] in q && HasOrder(pool, objs, q[i]);
      }
    }
  }

  /** The queue `q` (possibly empty) with node `n`, carrying order `p`, at its back. */
  lemma {:induction false} AppendedLevel(m: Memory, s: Side, lv: PriceLevel, q: seq<nat>, n: nat, p: nat)
    requires n < |m.pool| && m.pool[n].order.Null? && p < |m.objs| && LevelOrNew(m, s, lv, q)
    requires m.objs[p].side == s && m.objs[p].price == lv.price
    ensures lv.tail.Ref? ==> lv.tail.at < |m.pool|
    ensures var pool' := AppendedPool(m, lv, n, p);
            && LevelOk(pool', m.objs, s, AppendLevel(lv, n, m.objs[p].remaining), q + [n])
            && QueueOrders(pool', m.objs, q + [n]) == QueueOrders(m.pool, m.objs, q) + [m.objs[p]]
  {
    AppendedThread(m, s, lv, q, n, p);
    var pool', r := AppendedPool(m, lv, n, p), q + [n];
    AppendedOrders(m.pool, pool', m.objs, q, n, p);
    var orders := QueueOrders(m.pool, m.objs, q);
    forall i | 0 <= i < |r|
      ensures OrderAt(pool', m.objs, r[i]).side == s && OrderAt(pool', m.objs, r[i]).price == lv.price
    {
      assert OrderAt(pool', m.objs, r[i]) == (orders + [m.objs[p]])[i];
    }
    TotalAppend(orders, m.objs[p]);
  }

  // ----- Inserting an order

  /** The level an order joins: the one at its price, or a level just opened. */
  function JoinedLevel(levels: seq<PriceLevel>, i: nat, price: int): PriceLevel {
    if i < |levels| && levels[i].price == price then levels[i] else PriceLevel(price, 0, Null, Null)
  }

  ghost predicate LinkedIn(t: Threads, s: Side, n: nat) {
    Linked(t.Of(s), n)
  }

  /** Node `n` received order `p`; no other order field changed. */
  ghost predicate OnlyOrderOf(pool: seq<Node>, pool': seq<Node>, n: nat, order: Ptr) {
    && |pool'| == |pool|
    && n < |pool|
    && forall k :: 0 <= k < |pool| ==> pool'[k].order == if k == n then order else pool[k].order
  }

  lemma {:induction false} InsertedFree(pool: seq<Node>, pool': seq<Node>, free: Ptr, q: seq<nat>, n: nat, p: nat)
    requires FreeOk(pool, free, q, {n}) && OnlyOrderOf(pool, pool', n, Ref(p))
    requires forall k :: 0 <= k < |pool| && k != n && pool[k].order.Null? ==> pool'[k] == pool[k]
    ensures FreeOk(pool', free, q, {})
  {
    forall i | 0 <= i < |q|
      ensures pool'[q[i]] == pool[q[i]]
    {
      assert q[i] !in {n};
    }
  }

  lemma {:induction false} InsertedIndex(pool: seq<Node>, objs: seq<Order>, pool': seq<Node>, index: map<nat, nat>,
                                         n: nat, p: nat)
    requires IndexOk(pool, objs, index) && OnlyOrderOf(pool, pool', n, Ref(p)) && pool[n].order.Null?
    requires p < |objs| && objs[p].id !in index
    ensures IndexOk(pool', objs, index[objs[p].id := n])
  {
    forall k | 0 <= k < |pool| && k != n
      ensures HasOrder(pool', objs, k) <==> HasOrder(pool, objs, k)
      ensures OrderAt(pool', objs, k) == OrderAt(pool, objs, k)
    {
    }
  }

  lemma {:induction false} InsertedPlaced(pool: seq<Node>, objs: seq<Order>, pool': seq<Node>, t: Threads,
                                          t': Threads, n: nat, p: nat)
    requires PlacedOk(pool, objs, t) && OnlyOrderOf(pool, pool', n, Ref(p)) && p < |objs|
    requires forall s, k :: LinkedIn(t, s, k) ==> LinkedIn(t', s, k)
    requires LinkedIn(t', objs[p].side, n)
    ensures PlacedOk(pool', objs, t')
  {
    forall k | 0 <= k < |pool'| && pool'[k].order.Ref?
      ensures Linked(t'.Of(OrderAt(pool', objs, k).side), k)
    {
      if k != n {
        assert OrderAt(pool', objs, k) == OrderAt(pool, objs, k);
        assert LinkedIn(t, OrderAt(pool, objs, k).side, k);
      }
      assert LinkedIn(t', OrderAt(pool', objs, k).side, k);
    }
  }

  lemma {:induction false} SlotIs(levels: seq<Level>, s: Side, price: int, i: nat)
    requires i <= |levels|
    requires forall k :: 0 <= k < i ==> Better(s, levels[k].price, price)
    requires i < |levels| ==> !Better(s, levels[i].price, price)
    ensures Slot(levels, s, price) == i
  {
    SlotSplits(levels, s, price);
  }

  lemma {:induction false} LinkedUpdate(qs: seq<seq<nat>>, i: nat, q: seq<nat>, k: nat)
    requires i < |qs| && Linked(qs, k) && (k in qs[i] ==> k in q)
    ensures Linked(qs[i := q], k)
  {
    var l :| 0 <= l < |qs| && k in qs[l];
    assert k in qs[i := q][l];
  }

  lemma {:induction false} LinkedInsert(qs: seq<seq<nat>>, i: nat, q: seq<nat>, k: nat)
    requires i <= |qs| && (Linked(qs, k) || k in q)
    ensures Linked(Insert(qs, i, q), k)
  {
    var r := Insert(qs, i, q);
    if k in q {
      assert k in r[i];
    } else {
      var l :| 0 <= l < |qs| && k in qs[l];
      assert k in r[if l < i then l else l + 1];
    }
  }

  lemma {:induction false} OkIntro(m: Memory, t: Threads, held: set<nat>, s: Side)
    requires SideOk(m.pool, m.objs, s, m.Of(s), t.Of(s))
    requires SideOk(m.pool, m.objs, s.Opposite(), m.Of(s.Opposite()), t.Of(s.Opposite()))
    requires FreeOk(m.pool, m.free, t.free, held)
    requires IndexOk(m.pool, m.objs, m.index)
    requires PlacedOk(m.pool, m.objs, t)
    ensures Ok(m, t, held)
  {
  }

  lemma {:induction false} OkSide(m: Memory, t: Threads, held: set<nat>, s: Side)
    requires Ok(m, t, held)
    ensures SideOk(m.pool, m.objs, s, m.Of(s), t.Of(s))
  {
  }

  lemma {:induction false} InsertAtLevelSame(m: Memory, t: Threads, s: Side, i: nat, n: nat, p: nat, pool': seq<Node>)
    requires Ok(m, t, {n}) && n < |m.pool| && m.pool[n].order.Null?
    requires p < |m.objs| && i < |m.Of(s)|
    requires m.Of(s)[i].tail.Ref? ==> m.Of(s)[i].tail.at < |m.pool|
    requires pool' == AppendedPool(m, m.Of(s)[i], n, p)
    ensures OnlyOrderOf(m.pool, pool', n, Ref(p))
    ensures forall k :: 0 <= k < |m.pool| && k != n && m.pool[k].order.Null? ==> pool'[k] == m.pool[k]
    ensures forall l :: 0 <= l < |t.Of(s)| && l != i ==> SameOn(m.pool, m.objs, pool', m.objs, t.Of(s)[l])
    ensures SameSide(m.pool, m.objs, pool', m.objs, t.Of(s.Opposite()))
  {
    OkSide(m, t, {n}, s);
    var q := t.Of(s)[i];
    AppendedThread(m, s, m.Of(s)[i], q, n, p);
    BareNotQueued(m.pool, m.objs, s, m.Of(s)[i], q);
    OthersSameNodes(m, t, {n}, s, i, q, pool');
  }

  lemma {:induction false} InsertAtLevelSides(m: Memory, t: Threads, s: Side, i: nat, n: nat, p: nat, pool': seq<Node>,
                                              levels': seq<PriceLevel>, qs': seq<seq<nat>>)
    requires SideOk(m.pool, m.objs, s, m.Of(s), t.Of(s))
    requires SideOk(m.pool, m.objs, s.Opposite(), m.Of(s.Opposite()), t.Of(s.Opposite()))
    requires n < |m.pool| && m.pool[n].order.Null?
    requires p < |m.objs| && m.objs[p].side == s
    requires i < |m.Of(s)| && m.Of(s)[i].price == m.objs[p].price
    requires m.Of(s)[i].tail.Ref? ==> m.Of(s)[i].tail.at < |m.pool|
    requires pool' == AppendedPool(m, m.Of(s)[i], n, p)
    requires levels' == m.Of(s)[i := AppendLevel(m.Of(s)[i], n, m.objs[p].remaining)]
    requires qs' == t.Of(s)[i := t.Of(s)[i] + [n]]
    requires forall l :: 0 <= l < |t.Of(s)| && l != i ==> SameOn(m.pool, m.objs, pool', m.objs, t.Of(s)[l])
    requires SameSide(m.pool, m.objs, pool', m.objs, t.Of(s.Opposite()))
    ensures SideOk(pool', m.objs, s, levels', qs')
    ensures SideOk(pool', m.objs, s.Opposite(), m.Of(s.Opposite()), t.Of(s.Opposite()))
    ensures var abs := AbstractSide(m, t, s);
            SideLevels(pool', m.objs, levels', qs') == abs[i := Level(m.objs[p].price, abs[i].orders + [m.objs[p]])]
    ensures SideLevels(pool', m.objs, m.Of(s.Opposite()), t.Of(s.Opposite())) == AbstractSide(m, t, s.Opposite())
  {
    AppendedLevel(m, s, m.Of(s)[i], t.Of(s)[i], n, p);
    SideUpdate(m.pool, m.objs, pool', m.objs, s, m.Of(s), t.Of(s), i, levels'[i], qs'[i]);
    SideFrame(m.pool, m.objs, pool', m.objs, s.Opposite(), m.Of(s.Opposite()), t.Of(s.Opposite()));
  }

  lemma {:induction false} InsertNewLevelSides(m: Memory, t: Threads, s: Side, i: nat, n: nat, p: nat, pool': seq<Node>,
                                               levels': seq<PriceLevel>, qs': seq<seq<nat>>)
    requires Ok(m, t, {n}) && n < |m.pool| && m.pool[n].order.Null?
    requires p < |m.objs| && m.objs[p].side == s
    requires i <= |m.Of(s)|
    requires forall k :: 0 <= k < i ==> Better(s, m.Of(s)[k].price, m.objs[p].price)
    requires forall k :: i <= k < |m.Of(s)| ==> Better(s, m.objs[p].price, m.Of(s)[k].price)
    requires pool' == AppendedPool(m, PriceLevel(m.objs[p].price, 0, Null, Null), n, p)
    requires levels' == Insert(m.Of(s), i,
                               AppendLevel(PriceLevel(m.objs[p].price, 0, Null, Null), n, m.objs[p].remaining))
    requires qs' == Insert(t.Of(s), i, [n])
    ensures OnlyOrderOf(m.pool, pool', n, Ref(p))
    ensures forall k :: 0 <= k < |m.pool| && k != n && m.pool[k].order.Null? ==> pool'[k] == m.pool[k]
    ensures SideOk(pool', m.objs, s, levels', qs')
    ensures SideOk(pool', m.objs, s.Opposite(), m.Of(s.Opposite()), t.Of(s.Opposite()))
    ensures SideLevels(pool', m.objs, levels', qs')
            == Insert(AbstractSide(m, t, s), i, Level(m.objs[p].price, [m.objs[p]]))
    ensures SideLevels(pool', m.objs, m.Of(s.Opposite()), t.Of(s.Opposite())) == AbstractSide(m, t, s.Opposite())
  {
    var lv := PriceLevel(m.objs[p].price, 0, Null, Null);
    AppendedThread(m, s, lv, [], n, p);
    AppendedLevel(m, s, lv, [], n, p);
    assert [] + [n] == [n] && QueueOrders(m.pool, m.objs, []) + [m.objs[p]] == [m.objs[p]];
    AllSame(m, t, {n}, pool', m.objs);
    SideInsert(m.pool, m.objs, pool', m.objs, s, m.Of(s), t.Of(s), i, AppendLevel(lv, n, m.objs[p].remaining), [n]);
    SideFrame(m.pool, m.objs, pool', m.objs, s.Opposite(), m.Of(s.Opposite()), t.Of(s.Opposite()));
  }

  /** The memory after node `n` joined the back of the level at index `i` with order `p`. */
  ghost function InsertedMemory(m: Memory, s: Side, i: nat, n: nat, p: nat): Memory
    requires i <= |m.Of(s)| && n < |m.pool| && p < |m.objs|
    requires var lv := JoinedLevel(m.Of(s), i, m.objs[p].price); lv.tail.Ref? ==> lv.tail.at < |m.pool|
  {
    var o := m.objs[p];
    var lv := JoinedLevel(m.Of(s), i, o.price);
    var lv' := AppendLevel(lv, n, o.remaining);
    m.(pool := AppendedPool(m, lv, n, p), index := m.index[o.id := n])
     .With(s, if i < |m.Of(s)| && m.Of(s)[i].price == o.price then m.Of(s)[i := lv'] else Insert(m.Of(s), i, lv'))
  }

  ghost function InsertedThreads(m: Memory, t: Threads, s: Side, i: nat, n: nat, price: int): Threads
    requires i <= |m.Of(s)| == |t.Of(s)|
  {
    t.With(s, if i < |m.Of(s)| && m.Of(s)[i].price == price then t.Of(s)[i := t.Of(s)[i] + [n]]
              else Insert(t.Of(s), i, [n]))
  }

  lemma {:induction false} InsertLinks(m: Memory, t: Threads, s: Side, i: nat, n: nat, price: int)
    requires i <= |m.Of(s)| == |t.Of(s)|
    ensures var t' := InsertedThreads(m, t, s, i, n, price);
            && LinkedIn(t', s, n)
            && forall x, k :: LinkedIn(t, x, k) ==> LinkedIn(t', x, k)
  {
    var t' := InsertedThreads(m, t, s, i, n, price);
    if i < |m.Of(s)| && m.Of(s)[i].price == price {
      assert n in t'.Of(s)[i];
      forall k | Linked(t.Of(s), k)
        ensures Linked(t'.Of(s), k)
      {
        LinkedUpdate(t.Of(s), i, t.Of(s)[i] + [n], k);
      }
    } else {
      LinkedInsert(t.Of(s), i, [n], n);
      forall k | Linked(t.Of(s), k)
        ensures Linked(t'.Of(s), k)
      {
        LinkedInsert(t.Of(s), i, [n], k);
      }
    }
  }

  ghost predicate SlotAt(levels: seq<PriceLevel>, s: Side, i: nat, price: int) {
    && i <= |levels|
    && (forall k :: 0 <= k < i ==> Better(s, levels[k].price, price))
    && (i < |levels| ==> !Better(s, levels[i].price, price))
  }

  lemma {:induction false} JoinedTail(m: Memory, t: Threads, s: Side, i: nat, price: int)
    requires SideOk(m.pool, m.objs, s, m.Of(s), t.Of(s))
    ensures var lv := JoinedLevel(m.Of(s), i, price); lv.tail.Ref? ==> lv.tail.at < |m.pool|
  {
    if i < |m.Of(s)| {
      assert LevelOk(m.pool, m.objs, s, m.Of(s)[i], t.Of(s)[i]);
    }
  }

  lemma {:induction false} InsertKeepsSides(m: Memory, t: Threads, s: Side, i: nat, n: nat, p: nat, m': Memory,
                                            t': Threads)
    requires Ok(m, t, {n}) && n < |m.pool| && m.pool[n].order.Null?
    requires p < |m.objs| && m.objs[p].side == s
    requires SlotAt(m.Of(s), s, i, m.objs[p].price)
    requires var lv := JoinedLevel(m.Of(s), i, m.objs[p].price); lv.tail.Ref? ==> lv.tail.at < |m.pool|
    requires m' == InsertedMemory(m, s, i, n, p) && t' == InsertedThreads(m, t, s, i, n, m.objs[p].price)
    ensures OnlyOrderOf(m.pool, m'.pool, n, Ref(p))
    ensures forall k :: 0 <= k < |m.pool| && k != n && m.pool[k].order.Null? ==> m'.pool[k] == m.pool[k]
    ensures SideOk(m'.pool, m.objs, s, m'.Of(s), t'.Of(s))
    ensures SideOk(m'.pool, m.objs, s.Opposite(), m'.Of(s.Opposite()), t'.Of(s.Opposite()))
    ensures AbstractSide(m', t', s) == Rest(AbstractSide(m, t, s), m.objs[p])
    ensures AbstractSide(m', t', s.Opposite()) == AbstractSide(m, t, s.Opposite())
  {
    OkSide(m, t, {n}, s);
    OkSide(m, t, {n}, s.Opposite());
    SlotIs(AbstractSide(m, t, s), s, m.objs[p].price, i);
    if i < |m.Of(s)| && m.Of(s)[i].price == m.objs[p].price {
      InsertAtLevelSame(m, t, s, i, n, p, m'.pool);
      InsertAtLevelSides(m, t, s, i, n, p, m'.pool, m'.Of(s), t'.Of(s));
    } else {
      InsertNewLevelSides(m, t, s, i, n, p, m'.pool, m'.Of(s), t'.Of(s));
    }
  }

  /** Inserting an order keeps the invariant, rests the order in the book it represents and leaves
      the other side alone. */
  lemma {:induction false} InsertKeepsOk(m: Memory, t: Threads, s: Side, i: nat, n: nat, p: nat, m': Memory,
                                         t': Threads)
    requires Ok(m, t, {n}) && n < |m.pool| && m.pool[n].order.Null?
    requires p < |m.objs| && m.objs[p].id !in m.index && m.objs[p].side == s
    requires SlotAt(m.Of(s), s, i, m.objs[p].price)
    requires var lv := JoinedLevel(m.Of(s), i, m.objs[p].price); lv.tail.Ref? ==> lv.tail.at < |m.pool|
    requires m' == InsertedMemory(m, s, i, n, p) && t' == InsertedThreads(m, t, s, i, n, m.objs[p].price)
    ensures Ok(m', t', {})
    ensures AbstractSide(m', t', s) == Rest(AbstractSide(m, t, s), m.objs[p])
    ensures AbstractSide(m', t', s.Opposite()) == AbstractSide(m, t, s.Opposite())
  {
    InsertKeepsSides(m, t, s, i, n, p, m', t');
    InsertLinks(m, t, s, i, n, m.objs[p].price);
    InsertedPlaced(m.pool, m.objs, m'.pool, t, t', n, p);
    InsertedIndex(m.pool, m.objs, m'.pool, m.index, n, p);
    InsertedFree(m.pool, m'.pool, m.free, t.free, n, p);
    OkIntro(m', t', {}, s);
  }

  // ----- Removing an order

  /** `remove` followed by `free_node`. */
  function RemovedPool(pool: seq<Node>, free: Ptr, n: nat): (r: seq<Node>)
    requires RemoveDefinedFor(pool, n)
    ensures |r| == |pool|
  {
    RemovePool(pool, n)[n := Node(Null, free, Null)]
  }

  lemma {:induction false} RemovedChain(pool: seq<Node>, q: seq<nat>, k: nat, free: Ptr)
    requires Chain(pool, q) && k < |q|
    ensures RemoveDefinedFor(pool, q[k])
    ensures Chain(RemovedPool(pool, free, q[k]), Without(q, k))
  {
    RemoveChain(pool, q, k);
    DistinctWithout(q, k);
    ChainElsewhere(RemovePool(pool, q[k]), Without(q, k), q[k], Node(Null, free, Null));
  }

  lemma {:induction false} ChainElsewhere(pool: seq<Node>, q: seq<nat>, n: nat, node: Node)
    requires Chain(pool, q) && n < |pool| && n !in q
    ensures Chain(pool[n := node], q)
  {
    var pool' := pool[n := node];
    forall i {:trigger pool'[q[i]]} | 0 <= i < |q|
      ensures pool'[q[i]] == pool[q[i]]
    {
      assert q[i] in q;
    }
  }

  lemma {:induction false} RemovedFrame(pool: seq<Node>, q: seq<nat>, k: nat, free: Ptr)
    requires Chain(pool, q) && k < |q|
    ensures RemoveDefinedFor(pool, q[k])
    ensures OnlyOrderOf(pool, RemovedPool(pool, free, q[k]), q[k], Null)
    ensures RemovedPool(pool, free, q[k])[q[k]] == Node(Null, free, Null)
    ensures forall m :: 0 <= m < |pool| && m !in q ==> RemovedPool(pool, free, q[k])[m] == pool[m]
  {
    RemoveFrame(pool, q, k);
  }

  lemma {:induction false} RemovedOrders(pool: seq<Node>, pool': seq<Node>, objs: seq<Order>, q: seq<nat>, k: nat)
    requires Distinct(q) && k < |q| && OnlyOrderOf(pool, pool', q[k], Null)
    requires forall i {:trigger HasOrder(pool, objs, q[i])} :: 0 <= i < |q| ==> HasOrder(pool, objs, q[i])
    ensures var orders := QueueOrders(pool, objs, q);
            QueueOrders(pool', objs, Without(q, k)) == orders[..k] + orders[k + 1..]
    ensures forall i :: 0 <= i < |q| - 1 ==> HasOrder(pool', objs, Without(q, k)[i])
  {
    var r := Without(q, k);
    var orders := QueueOrders(pool, objs, q);
    forall i | 0 <= i < |r|
      ensures HasOrder(pool', objs, r[i]) && OrderAt(pool', objs, r[i]) == (orders[..k] + orders[k + 1..])[i]
    {
      var j := if i < k then i else i + 1;
      assert r[i] == q[j] && q[j] != q[k] && HasOrder(pool, objs, q[j]);
    }
  }

  lemma {:induction false} RemovedTerms(pool: seq<Node>, objs: seq<Order>, s: Side, price: int, q: seq<nat>, k: nat,
                                        pool': seq<Node>)
    requires k < |q|
    requires QueueOrders(pool', objs, Without(q, k))
             == QueueOrders(pool, objs, q)[..k] + QueueOrders(pool, objs, q)[k + 1..]
    requires forall i {:trigger OrderAt(pool, objs, q[i])} :: 0 <= i < |q| ==>
               OrderAt(pool, objs, q[i]).side == s && OrderAt(pool, objs, q[i]).price == price
    ensures forall i {:trigger OrderAt(pool', objs, Without(q, k)[i])} :: 0 <= i < |q| - 1 ==>
              OrderAt(pool', objs, Without(q, k)[i]).side == s && OrderAt(pool', objs, Without(q, k)[i]).price == price
  {
    var r, orders := Without(q, k), QueueOrders(pool, objs, q);
    forall i {:trigger OrderAt(pool', objs, r[i])} | 0 <= i < |r|
      ensures OrderAt(pool', objs, r[i]).side == s && OrderAt(pool', objs, r[i]).price == price
    {
      var j := if i < k then i else i + 1;
      assert OrderAt(pool', objs, r[i]) == QueueOrders(pool', objs, r)[i] == orders[j] == OrderAt(pool, objs, q[j]);
    }
  }

  lemma {:induction false} RemovedLevel(pool: seq<Node>, objs: seq<Order>, s: Side, lv: PriceLevel, q: seq<nat>,
                                        k: nat, free: Ptr)
    requires LevelOk(pool, objs, s, lv, q) && k < |q|
    ensures RemoveDefinedFor(pool, q[k])
    ensures OrderAt(pool, objs, q[k]).remaining <= lv.total
    ensures var pool' := RemovedPool(pool, free, q[k]);
            var lv' := RemoveLevel(pool, lv, q[k], OrderAt(pool, objs, q[k]).remaining);
            var orders := QueueOrders(pool, objs, q);
            && (lv'.head.Null? <==> |q| == 1)
            && lv'.price == lv.price
            && (|q| > 1 ==> LevelOk(pool', objs, s, lv', Without(q, k)))
            && QueueOrders(pool', objs, Without(q, k)) == orders[..k] + orders[k + 1..]
  {
    RemovedChain(pool, q, k, free);
    RemovedFrame(pool, q, k, free);
    var pool', orders := RemovedPool(pool, free, q[k]), QueueOrders(pool, objs, q);
    RemovedOrders(pool, pool', objs, q, k);
    RemovedTerms(pool, objs, s, lv.price, q, k, pool');
    assert orders[k] == OrderAt(pool, objs, q[k]);
    TotalWithout(orders, k);
    RemoveEnds(pool, lv, q, k, orders[k].remaining);
  }

  /** Pushing a bare node in front of a free list. */
  lemma {:induction false} PushedFree(pool': seq<Node>, free: Ptr, q: seq<nat>, n: nat)
    requires Distinct(q) && free == At(q, 0) && n !in q && n < |pool'|
    requires forall i :: 0 <= i < |q| ==> q[i] < |pool'|
    requires forall i {:trigger pool'[q[i]]} :: 0 <= i < |q| ==> pool'[q[i]] == Node(Null, At(q, i + 1), Null)
    requires pool'[n] == Node(Null, free, Null)
    requires forall k :: 0 <= k < |pool'| && pool'[k].order.Null? ==> k == n || k in q
    ensures FreeOk(pool', Ref(n), [n] + q, {})
  {
    var r := [n] + q;
    assert forall i :: 0 < i < |r| ==> r[i] == q[i - 1] && r[i] in q;
    forall i {:trigger pool'[r[i]]} | 0 <= i < |r|
      ensures pool'[r[i]] == Node(Null, At(r, i + 1), Null)
    {
      if i > 0 {
        assert pool'[q[i - 1]] == Node(Null, At(q, i), Null);
      }
    }
  }

  lemma {:induction false} RemovedFree(pool: seq<Node>, pool': seq<Node>, free: Ptr, q: seq<nat>, n: nat)
    requires FreeOk(pool, free, q, {}) && OnlyOrderOf(pool, pool', n, Null) && pool[n].order.Ref?
    requires pool'[n] == Node(Null, free, Null)
    requires forall k :: 0 <= k < |pool| && pool[k].order.Null? ==> pool'[k] == pool[k]
    ensures FreeOk(pool', Ref(n), [n] + q, {})
  {
    forall i {:trigger pool'[q[i]]} | 0 <= i < |q|
      ensures q[i] != n && pool'[q[i]] == Node(Null, At(q, i + 1), Null)
    {
      assert pool[q[i]] == Node(Null, At(q, i + 1), Null);
    }
    assert n !in q by {
      forall i | 0 <= i < |q|
        ensures q[i] != n
      {
        assert pool[q[i]].order.Null?;
      }
    }
    PushedFree(pool', free, q, n);
  }

  lemma {:induction false} RemovedIndex(pool: seq<Node>, objs: seq<Order>, pool': seq<Node>, index: map<nat, nat>,
                                        n: nat)
    requires IndexOk(pool, objs, index) && OnlyOrderOf(pool, pool', n, Null) && pool[n].order.Ref?
    ensures IndexOk(pool', objs, index - {OrderAt(pool, objs, n).id})
  {
    forall k | 0 <= k < |pool| && k != n
      ensures HasOrder(pool', objs, k) <==> HasOrder(pool, objs, k)
      ensures OrderAt(pool', objs, k) == OrderAt(pool, objs, k)
    {
    }
  }

  lemma {:induction false} RemovedPlaced(pool: seq<Node>, objs: seq<Order>, pool': seq<Node>, t: Threads, t': Threads,
                                         n: nat)
    requires PlacedOk(pool, objs, t) && OnlyOrderOf(pool, pool', n, Null)
    requires forall s, k :: LinkedIn(t, s, k) && k != n ==> LinkedIn(t', s, k)
    ensures PlacedOk(pool', objs, t')
  {
    forall k | 0 <= k < |pool'| && pool'[k].order.Ref?
      ensures Linked(t'.Of(OrderAt(pool', objs, k).side), k)
    {
      assert OrderAt(pool', objs, k) == OrderAt(pool, objs, k);
      assert LinkedIn(t, OrderAt(pool, objs, k).side, k);
      assert LinkedIn(t', OrderAt(pool', objs, k).side, k);
    }
  }

  /** The memory after the `k`-th order of level `l` was unlinked, forgotten by the index and its
      node returned to the free list; an emptied level is erased. */
  ghost function RemovedMemory(m: Memory, s: Side, l: nat, n: nat, o: Order): Memory
    requires l < |m.Of(s)| && RemoveDefinedFor(m.pool, n) && o.remaining <= m.Of(s)[l].total
  {
    var lv' := RemoveLevel(m.pool, m.Of(s)[l], n, o.remaining);
    m.(pool := RemovedPool(m.pool, m.free, n), free := Ref(n), index := m.index - {o.id})
     .With(s, if lv'.head.Null? then Erase(m.Of(s), l) else m.Of(s)[l := lv'])
  }

  ghost function RemovedThreads(t: Threads, s: Side, l: nat, k: nat): Threads
    requires l < |t.Of(s)| && k < |t.Of(s)[l]|
  {
    var q := t.Of(s)[l];
    t.(free := [q[k]] + t.free).With(s, if |q| == 1 then Erase(t.Of(s), l) else t.Of(s)[l := Without(q, k)])
  }

  lemma {:induction false} RemoveLinks(t: Threads, s: Side, l: nat, k: nat)
    requires l < |t.Of(s)| && k < |t.Of(s)[l]|
    ensures var t' := RemovedThreads(t, s, l, k);
            forall x, j :: LinkedIn(t, x, j) && j != t.Of(s)[l][k] ==> LinkedIn(t', x, j)
  {
    var qs, q := t.Of(s), t.Of(s)[l];
    var t' := RemovedThreads(t, s, l, k);
    forall j | Linked(qs, j) && j != q[k]
      ensures Linked(t'.Of(s), j)
    {
      var i :| 0 <= i < |qs| && j in qs[i];
      if i == l {
        var a :| 0 <= a < |q| && q[a] == j;
        assert Without(q, k)[if a < k then a else a - 1] == j;
        assert j in t'.Of(s)[l];
      } else {
        assert j in t'.Of(s)[if |q| == 1 && i > l then i - 1 else i];
      }
    }
  }

  lemma {:induction false} BareNotQueued(pool: seq<Node>, objs: seq<Order>, s: Side, lv: PriceLevel, q: seq<nat>)
    requires LevelOk(pool, objs, s, lv, q)
    ensures forall n :: 0 <= n < |pool| && pool[n].order.Null? ==> n !in q
  {
    forall n, i | 0 <= n < |pool| && pool[n].order.Null? && 0 <= i < |q|
      ensures q[i] != n
    {
      assert HasOrder(pool, objs, q[i]);
    }
  }

  /** What a removal from level `l` leaves untouched. */
  lemma {:induction false} RemoveSame(m: Memory, t: Threads, s: Side, l: nat, k: nat, pool': seq<Node>)
    requires Ok(m, t, {}) && l < |t.Of(s)| && k < |t.Of(s)[l]|
    requires RemoveDefinedFor(m.pool, t.Of(s)[l][k])
    requires pool' == RemovedPool(m.pool, m.free, t.Of(s)[l][k])
    ensures OnlyOrderOf(m.pool, pool', t.Of(s)[l][k], Null)
    ensures pool'[t.Of(s)[l][k]] == Node(Null, m.free, Null)
    ensures forall n :: 0 <= n < |m.pool| && m.pool[n].order.Null? ==> pool'[n] == m.pool[n]
    ensures forall i :: 0 <= i < |t.Of(s)| && i != l ==> SameOn(m.pool, m.objs, pool', m.objs, t.Of(s)[i])
    ensures SameSide(m.pool, m.objs, pool', m.objs, t.Of(s.Opposite()))
  {
    OkSide(m, t, {}, s);
    var q := t.Of(s)[l];
    RemovedFrame(m.pool, q, k, m.free);
    BareNotQueued(m.pool, m.objs, s, m.Of(s)[l], q);
    OthersSameNodes(m, t, {}, s, l, q, pool');
  }

  lemma {:induction false} RemoveKeepsSides(m: Memory, t: Threads, s: Side, l: nat, k: nat, m': Memory, t': Threads)
    requires SideOk(m.pool, m.objs, s, m.Of(s), t.Of(s)) && l < |t.Of(s)| && k < |t.Of(s)[l]|
    requires RemoveDefinedFor(m.pool, t.Of(s)[l][k])
    requires OrderAt(m.pool, m.objs, t.Of(s)[l][k]).remaining <= m.Of(s)[l].total
    requires m' == RemovedMemory(m, s, l, t.Of(s)[l][k], OrderAt(m.pool, m.objs, t.Of(s)[l][k]))
    requires t' == RemovedThreads(t, s, l, k)
    requires forall i :: 0 <= i < |t.Of(s)| && i != l ==> SameOn(m.pool, m.objs, m'.pool, m.objs, t.Of(s)[i])
    ensures SideOk(m'.pool, m.objs, s, m'.Of(s), t'.Of(s))
    ensures AbstractSide(m', t', s) == RemoveAt(AbstractSide(m, t, s), l, k)
  {
    var q := t.Of(s)[l];
    RemovedLevel(m.pool, m.objs, s, m.Of(s)[l], q, k, m.free);
    if |q| == 1 {
      SideErase(m.pool, m.objs, m'.pool, m.objs, s, m.Of(s), t.Of(s), l);
    } else {
      SideUpdate(m.pool, m.objs, m'.pool, m.objs, s, m.Of(s), t.Of(s), l, m'.Of(s)[l], Without(q, k));
    }
  }

  /** Removing an order keeps the invariant, removes exactly that order from the book it represents
      and leaves the other side alone. */
  lemma {:induction false} RemoveKeepsOk(m: Memory, t: Threads, s: Side, l: nat, k: nat, m': Memory, t': Threads)
    requires Ok(m, t, {}) && l < |t.Of(s)| && k < |t.Of(s)[l]|
    requires RemoveDefinedFor(m.pool, t.Of(s)[l][k])
    requires OrderAt(m.pool, m.objs, t.Of(s)[l][k]).remaining <= m.Of(s)[l].total
    requires m' == RemovedMemory(m, s, l, t.Of(s)[l][k], OrderAt(m.pool, m.objs, t.Of(s)[l][k]))
    requires t' == RemovedThreads(t, s, l, k)
    ensures Ok(m', t', {})
    ensures AbstractSide(m', t', s) == RemoveAt(AbstractSide(m, t, s), l, k)
    ensures AbstractSide(m', t', s.Opposite()) == AbstractSide(m, t, s.Opposite())
  {
    var n, o := t.Of(s)[l][k], s.Opposite();
    RemoveSame(m, t, s, l, k, m'.pool);
    OkSide(m, t, {}, s);
    OkSide(m, t, {}, o);
    RemoveKeepsSides(m, t, s, l, k, m', t');
    SideFrame(m.pool, m.objs, m'.pool, m.objs, o, m.Of(o), t.Of(o));
    assert HasOrder(m.pool, m.objs, n);
    RemovedFree(m.pool, m'.pool, m.free, t.free, n);
    RemovedIndex(m.pool, m.objs, m'.pool, m.index, n);
    RemoveLinks(t, s, l, k);
    RemovedPlaced(m.pool, m.objs, m'.pool, t, t', n);
    OkIntro(m', t', {}, s);
  }

  // ----- Filling the front order of a side

  lemma {:induction false} OneNodePerObject(pool: seq<Node>, objs: seq<Order>, index: map<nat, nat>, n: nat, k: nat)
    requires IndexOk(pool, objs, index) && HasOrder(pool, objs, n) && HasOrder(pool, objs, k)
    requires pool[n].order == pool[k].order
    ensures n == k
  {
    assert index[OrderAt(pool, objs, n).id] == n && index[OrderAt(pool, objs, k).id] == k;
  }

  /** The store after `q` was filled of object `p`. */
  function FilledObjects(objs: seq<Order>, p: nat, q: nat): (r: seq<Order>)
    requires p < |objs| && q <= objs[p].remaining
    ensures |r| == |objs|
  {
    objs[p := objs[p].(remaining := objs[p].remaining - q)]
  }

  lemma {:induction false} FilledOrders(m: Memory, n: nat, q: nat)
    requires IndexOk(m.pool, m.objs, m.index) && HasOrder(m.pool, m.objs, n)
    requires q <= OrderAt(m.pool, m.objs, n).remaining
    ensures forall k :: 0 <= k < |m.pool| && HasOrder(m.pool, m.objs, k) ==>
              var objs' := FilledObjects(m.objs, m.pool[n].order.at, q);
              var o := OrderAt(m.pool, m.objs, k);
              && HasOrder(m.pool, objs', k)
              && OrderAt(m.pool, objs', k) == if k == n then o.(remaining := o.remaining - q) else o
  {
    forall k | 0 <= k < |m.pool| && HasOrder(m.pool, m.objs, k) && k != n
      ensures m.pool[k].order != m.pool[n].order
    {
      if m.pool[k].order == m.pool[n].order {
        OneNodePerObject(m.pool, m.objs, m.index, n, k);
      }
    }
  }

  lemma {:induction false} FilledElsewhere(m: Memory, t: Threads, n: nat, q: nat)
    requires IndexOk(m.pool, m.objs, m.index) && PlacedOk(m.pool, m.objs, t) && HasOrder(m.pool, m.objs, n)
    requires q <= OrderAt(m.pool, m.objs, n).remaining
    ensures IndexOk(m.pool, FilledObjects(m.objs, m.pool[n].order.at, q), m.index)
    ensures PlacedOk(m.pool, FilledObjects(m.objs, m.pool[n].order.at, q), t)
  {
    FilledOrders(m, n, q);
  }

  lemma {:induction false} TotalFill(orders: seq<Order>, q: nat)
    requires orders != [] && q <= orders[0].remaining
    ensures Total(orders[0 := orders[0].(remaining := orders[0].remaining - q)]) == Total(orders) - q
  {
    var r := orders[0 := orders[0].(remaining := orders[0].remaining - q)];
    assert r[1..] == orders[1..];
  }

  lemma {:induction false} FilledQueue(m: Memory, q: seq<nat>, qty: nat, objs': seq<Order>)
    requires IndexOk(m.pool, m.objs, m.index) && Distinct(q) && q != []
    requires forall i {:trigger HasOrder(m.pool, m.objs, q[i])} :: 0 <= i < |q| ==> HasOrder(m.pool, m.objs, q[i])
    requires qty <= OrderAt(m.pool, m.objs, q[0]).remaining
    requires HasOrder(m.pool, m.objs, q[0]) && objs' == FilledObjects(m.objs, m.pool[q[0]].order.at, qty)
    ensures forall i {:trigger HasOrder(m.pool, objs', q[i])} :: 0 <= i < |q| ==> HasOrder(m.pool, objs', q[i])
    ensures var orders := QueueOrders(m.pool, m.objs, q);
            QueueOrders(m.pool, objs', q) == orders[0 := orders[0].(remaining := orders[0].remaining - qty)]
  {
    FilledOrders(m, q[0], qty);
    var orders := QueueOrders(m.pool, m.objs, q);
    var orders' := orders[0 := orders[0].(remaining := orders[0].remaining - qty)];
    forall i {:trigger HasOrder(m.pool, objs', q[i])} | 0 <= i < |q|
      ensures HasOrder(m.pool, objs', q[i]) && OrderAt(m.pool, objs', q[i]) == orders'[i]
    {
      assert HasOrder(m.pool, m.objs, q[i]);
      assert i > 0 ==> q[i] != q[0];
    }
    forall i | 0 <= i < |q|
      ensures QueueOrders(m.pool, objs', q)[i] == orders'[i]
    {
      assert HasOrder(m.pool, objs', q[i]);
    }
  }

  lemma {:induction false} FilledLevel(m: Memory, s: Side, lv: PriceLevel, q: seq<nat>, qty: nat, objs': seq<Order>)
    requires LevelOk(m.pool, m.objs, s, lv, q) && IndexOk(m.pool, m.objs, m.index)
    requires HasOrder(m.pool, m.objs, q[0]) && qty <= OrderAt(m.pool, m.objs, q[0]).remaining
    requires objs' == FilledObjects(m.objs, m.pool[q[0]].order.at, qty)
    ensures qty <= lv.total
    ensures LevelOk(m.pool, objs', s, lv.(total := lv.total - qty), q)
    ensures var orders := QueueOrders(m.pool, m.objs, q);
            QueueOrders(m.pool, objs', q) == orders[0 := orders[0].(remaining := orders[0].remaining - qty)]
  {
    FilledQueue(m, q, qty, objs');
    var orders, orders' := QueueOrders(m.pool, m.objs, q), QueueOrders(m.pool, objs', q);
    TotalFill(orders, qty);
    forall i {:trigger OrderAt(m.pool, objs', q[i])} | 0 <= i < |q|
      ensures OrderAt(m.pool, objs', q[i]).side == s && OrderAt(m.pool, objs', q[i]).price == lv.price
    {
      assert orders'[i] == OrderAt(m.pool, objs', q[i]) && orders[i] == OrderAt(m.pool, m.objs, q[i]);
    }
  }

  lemma {:induction false} FillKeepsSide(m: Memory, s: Side, levels: seq<PriceLevel>, qs: seq<seq<nat>>, qty: nat,
                                         objs': seq<Order>, levels': seq<PriceLevel>)
    requires SideOk(m.pool, m.objs, s, levels, qs) && IndexOk(m.pool, m.objs, m.index)
    requires qs != [] && qs[0] != []
    requires HasOrder(m.pool, m.objs, qs[0][0]) && qty <= OrderAt(m.pool, m.objs, qs[0][0]).remaining
    requires qty <= levels[0].total
    requires objs' == FilledObjects(m.objs, m.pool[qs[0][0]].order.at, qty)
    requires levels' == levels[0 := levels[0].(total := levels[0].total - qty)]
    requires forall l :: 0 <= l < |qs| && l != 0 ==> SameOn(m.pool, m.objs, m.pool, objs', qs[l])
    ensures SideOk(m.pool, objs', s, levels', qs)
    ensures var abs := SideLevels(m.pool, m.objs, levels, qs);
            && abs[0].orders != [] && abs[0].orders[0] == OrderAt(m.pool, m.objs, qs[0][0])
            && SideLevels(m.pool, objs', levels', qs) == FillFront(abs, qty)
  {
    var q := qs[0];
    FilledLevel(m, s, levels[0], q, qty, objs');
    SideUpdate(m.pool, m.objs, m.pool, objs', s, levels, qs, 0, levels'[0], q);
    assert qs[0 := q] == qs;
  }

  /** The memory after `qty` was filled of the order at node `n`, front of side `s`. */
  ghost function FilledMemory(m: Memory, s: Side, n: nat, qty: nat): Memory
    requires HasOrder(m.pool, m.objs, n) && qty <= OrderAt(m.pool, m.objs, n).remaining
    requires m.Of(s) != [] && qty <= m.Of(s)[0].total
  {
    m.(objs := FilledObjects(m.objs, m.pool[n].order.at, qty))
     .With(s, m.Of(s)[0 := m.Of(s)[0].(total := m.Of(s)[0].total - qty)])
  }

  /** Filling the front order of a side keeps the invariant and fills the front of the book. */
  lemma {:induction false} FillKeepsOk(m: Memory, t: Threads, s: Side, qty: nat, m': Memory)
    requires Ok(m, t, {}) && t.Of(s) != [] && t.Of(s)[0] != []
    requires HasOrder(m.pool, m.objs, t.Of(s)[0][0]) && qty <= OrderAt(m.pool, m.objs, t.Of(s)[0][0]).remaining
    requires qty <= m.Of(s)[0].total
    requires m' == FilledMemory(m, s, t.Of(s)[0][0], qty)
    ensures Ok(m', t, {})
    ensures AbstractSide(m, t, s)[0].orders != []
    ensures AbstractSide(m, t, s)[0].orders[0] == OrderAt(m.pool, m.objs, t.Of(s)[0][0])
    ensures AbstractSide(m', t, s) == FillFront(AbstractSide(m, t, s), qty)
    ensures AbstractSide(m', t, s.Opposite()) == AbstractSide(m, t, s.Opposite())
  {
    OkSide(m, t, {}, s);
    OkSide(m, t, {}, s.Opposite());
    FilledSame(m, t, s, qty, m'.objs);
    FillBothSides(m, t, s, qty, m');
    FilledElsewhere(m, t, t.Of(s)[0][0], qty);
    OkIntro(m', t, {}, s);
  }

  lemma {:induction false} FillBothSides(m: Memory, t: Threads, s: Side, qty: nat, m': Memory)
    requires SideOk(m.pool, m.objs, s, m.Of(s), t.Of(s)) && IndexOk(m.pool, m.objs, m.index)
    requires SideOk(m.pool, m.objs, s.Opposite(), m.Of(s.Opposite()), t.Of(s.Opposite()))
    requires t.Of(s) != [] && t.Of(s)[0] != []
    requires HasOrder(m.pool, m.objs, t.Of(s)[0][0]) && qty <= OrderAt(m.pool, m.objs, t.Of(s)[0][0]).remaining
    requires qty <= m.Of(s)[0].total
    requires m' == FilledMemory(m, s, t.Of(s)[0][0], qty)
    requires forall l :: 0 <= l < |t.Of(s)| && l != 0 ==> SameOn(m.pool, m.objs, m.pool, m'.objs, t.Of(s)[l])
    requires SameSide(m.pool, m.objs, m.pool, m'.objs, t.Of(s.Opposite()))
    ensures SideOk(m'.pool, m'.objs, s, m'.Of(s), t.Of(s))
    ensures SideOk(m'.pool, m'.objs, s.Opposite(), m'.Of(s.Opposite()), t.Of(s.Opposite()))
    ensures AbstractSide(m, t, s)[0].orders != []
    ensures AbstractSide(m, t, s)[0].orders[0] == OrderAt(m.pool, m.objs, t.Of(s)[0][0])
    ensures AbstractSide(m', t, s) == FillFront(AbstractSide(m, t, s), qty)
    ensures AbstractSide(m', t, s.Opposite()) == AbstractSide(m, t, s.Opposite())
  {
    var o := s.Opposite();
    FillKeepsSide(m, s, m.Of(s), t.Of(s), qty, m'.objs, m'.Of(s));
    SideFrame(m.pool, m.objs, m.pool, m'.objs, o, m.Of(o), t.Of(o));
  }

  lemma {:induction false} FilledSame(m: Memory, t: Threads, s: Side, qty: nat, objs': seq<Order>)
    requires Ok(m, t, {}) && t.Of(s) != [] && t.Of(s)[0] != []
    requires HasOrder(m.pool, m.objs, t.Of(s)[0][0]) && qty <= OrderAt(m.pool, m.objs, t.Of(s)[0][0]).remaining
    requires objs' == FilledObjects(m.objs, m.pool[t.Of(s)[0][0]].order.at, qty)
    ensures forall l :: 0 <= l < |t.Of(s)| && l != 0 ==> SameOn(m.pool, m.objs, m.pool, objs', t.Of(s)[l])
    ensures SameSide(m.pool, m.objs, m.pool, objs', t.Of(s.Opposite()))
  {
    FilledOrders(m, t.Of(s)[0][0], qty);
    assert t.Of(s)[0][0] in t.Of(s)[0];
    OthersSame(m, t, {}, s, 0, m.pool, objs');
  }

  // ----- The node allocator

  /** A change among the nodes that carry no order, or new such nodes, is seen by the free list only. */
  lemma {:induction false} BareChange(m: Memory, t: Threads, held: set<nat>, pool': seq<Node>)
    requires Ok(m, t, held) && |pool'| >= |m.pool|
    requires forall k :: 0 <= k < |m.pool| && m.pool[k].order.Ref? ==> pool'[k] == m.pool[k]
    requires forall k :: 0 <= k < |pool'| && pool'[k].order.Ref? ==> k < |m.pool| && m.pool[k].order.Ref?
    ensures SideOk(pool', m.objs, Buy, m.bids, t.bids) && SideOk(pool', m.objs, Sell, m.asks, t.asks)
    ensures SideLevels(pool', m.objs, m.bids, t.bids) == SideLevels(m.pool, m.objs, m.bids, t.bids)
    ensures SideLevels(pool', m.objs, m.asks, t.asks) == SideLevels(m.pool, m.objs, m.asks, t.asks)
    ensures IndexOk(pool', m.objs, m.index) && PlacedOk(pool', m.objs, t)
  {
    AllSame(m, t, held, pool', m.objs);
    SideFrame(m.pool, m.objs, pool', m.objs, Buy, m.bids, t.bids);
    SideFrame(m.pool, m.objs, pool', m.objs, Sell, m.asks, t.asks);
    forall k | 0 <= k < |m.pool| && m.pool[k].order.Ref?
      ensures HasOrder(pool', m.objs, k) && OrderAt(pool', m.objs, k) == OrderAt(m.pool, m.objs, k)
    {
    }
  }

  lemma {:induction false} PlacedAs(pool: seq<Node>, objs: seq<Order>, t: Threads, t': Threads)
    requires PlacedOk(pool, objs, t) && t'.bids == t.bids && t'.asks == t.asks
    ensures PlacedOk(pool, objs, t')
  {
    forall n {:trigger Linked(t'.Of(OrderAt(pool, objs, n).side), n)} | 0 <= n < |pool| && pool[n].order.Ref?
      ensures Linked(t'.Of(OrderAt(pool, objs, n).side), n)
    {
      assert Linked(t.Of(OrderAt(pool, objs, n).side), n);
    }
  }

  /** Linking one more bare node into the free list. */
  lemma {:induction false} GrowKeepsOk(m: Memory, t: Threads, m': Memory, t': Threads)
    requires Ok(m, t, {})
    requires m' == m.(pool := m.pool + [Node(Null, m.free, Null)], free := Ref(|m.pool|))
    requires t' == t.(free := [|m.pool|] + t.free)
    ensures Ok(m', t', {})
    ensures Abstract(m', t') == Abstract(m, t)
  {
    BareChange(m, t, {}, m'.pool);
    GrownFree(m.pool, m.free, t.free);
    PlacedAs(m'.pool, m.objs, t, t');
    OkIntro(m', t', {}, Buy);
  }

  lemma {:induction false} GrownFree(pool: seq<Node>, free: Ptr, q: seq<nat>)
    requires FreeOk(pool, free, q, {})
    ensures FreeOk(pool + [Node(Null, free, Null)], Ref(|pool|), [|pool|] + q, {})
  {
    var pool' := pool + [Node(Null, free, Null)];
    forall i {:trigger pool'[q[i]]} | 0 <= i < |q|
      ensures pool'[q[i]] == Node(Null, At(q, i + 1), Null)
    {
      assert pool'[q[i]] == pool[q[i]];
    }
    PushedFree(pool', free, q, |pool|);
  }

  /** Taking the first free node. */
  lemma {:induction false} PopKeepsOk(m: Memory, t: Threads, m': Memory, t': Threads)
    requires Ok(m, t, {}) && t.free != []
    requires m' == m.(pool := m.pool[t.free[0] := Node(Null, Null, Null)], free := m.pool[t.free[0]].next)
    requires t' == t.(free := t.free[1..])
    ensures Ok(m', t', {t.free[0]})
    ensures Abstract(m', t') == Abstract(m, t)
  {
    assert m.pool[t.free[0]].order.Null?;
    BareChange(m, t, {}, m'.pool);
    PoppedFree(m.pool, m.free, t.free);
    PlacedAs(m'.pool, m.objs, t, t');
    OkIntro(m', t', {t.free[0]}, Buy);
  }

  lemma {:induction false} PoppedLinks(pool: seq<Node>, free: Ptr, q: seq<nat>, i: nat)
    requires FreeOk(pool, free, q, {}) && i + 1 < |q|
    ensures pool[q[0] := Node(Null, Null, Null)][q[i + 1]] == Node(Null, At(q[1..], i + 1), Null)
    ensures q[i + 1] != q[0]
  {
    assert pool[q[i + 1]] == Node(Null, At(q, i + 2), Null);
    assert q[0] != q[i + 1];
  }

  lemma {:induction false} InTail(q: seq<nat>, k: nat)
    requires q != [] && k in q && k != q[0]
    ensures k in q[1..]
  {
    var i :| 0 <= i < |q| && q[i] == k;
    assert q[1..][i - 1] == k;
  }

  lemma {:induction false} PoppedFree(pool: seq<Node>, free: Ptr, q: seq<nat>)
    requires FreeOk(pool, free, q, {}) && q != []
    ensures FreeOk(pool[q[0] := Node(Null, Null, Null)], pool[q[0]].next, q[1..], {q[0]})
  {
    var pool', r := pool[q[0] := Node(Null, Null, Null)], q[1..];
    assert Distinct(r);
    assert pool[q[0]].next == At(r, 0) by {
      assert pool[q[0]] == Node(Null, At(q, 1), Null);
    }
    forall i | 0 <= i < |r|
      ensures r[i] < |pool'| && r[i] !in {q[0]}
    {
      PoppedLinks(pool, free, q, i);
    }
    forall i {:trigger pool'[r[i]]} | 0 <= i < |r|
      ensures pool'[r[i]] == Node(Null, At(r, i + 1), Null)
    {
      PoppedLinks(pool, free, q, i);
    }
    forall k | 0 <= k < |pool'| && pool'[k].order.Null? && k !in {q[0]}
      ensures k in r
    {
      InTail(q, k);
    }
  }
}
