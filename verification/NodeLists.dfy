/** The linked structure of the book: pool nodes threaded into first-in-first-out queues, one
    per price level, and a free list. A pointer to a node is its index in the pool, a pointer
    to an order object its index in the store of order objects.
 */
module NodeLists {
  import opened PriceTimeBook

  datatype Ptr = Null | Ref(at: nat)

  datatype Node = Node(order: Ptr, next: Ptr, prev: Ptr)

  datatype PriceLevel = PriceLevel(price: int, total: nat, head: Ptr, tail: Ptr)

  // ----- Order objects seen through nodes

  predicate HasOrder(pool: seq<Node>, objs: seq<Order>, n: nat) {
    n < |pool| && pool[n].order.Ref? && pool[n].order.at < |objs|
  }

  /** The order object of a node; a placeholder for a node that carries none. */
  function OrderAt(pool: seq<Node>, objs: seq<Order>, n: nat): Order {
    if HasOrder(pool, objs, n) then objs[pool[n].order.at]
    else Order(GoodTillCancel, 0, Buy, 0, 0, 0)
  }

  ghost function QueueOrders(pool: seq<Node>, objs: seq<Order>, q: seq<nat>): (r: seq<Order>)
    ensures |r| == |q|
  {
    seq(|q|, i requires 0 <= i < |q| => OrderAt(pool, objs, q[i]))
  }

  // ----- Doubly linked queues

  ghost predicate Distinct(q: seq<nat>) {
    forall i, j :: 0 <= i < j < |q| ==> q[i] != q[j]
  }

  function At(q: seq<nat>, i: int): Ptr {
    if 0 <= i < |q| then Ref(q[i]) else Null
  }

  /** The nodes of `q` are threaded in order by `next` and backwards by `prev`. */
  ghost predicate Chain(pool: seq<Node>, q: seq<nat>) {
    && Distinct(q)
    && (forall i :: 0 <= i < |q| ==> q[i] < |pool|)
    && forall i {:trigger pool[q[i]]} :: 0 <= i < |q| ==>
         pool[q[i]].next == At(q, i + 1) && pool[q[i]].prev == At(q, i - 1)
  }

  ghost predicate Ends(lv: PriceLevel, q: seq<nat>) {
    lv.head == At(q, 0) && lv.tail == At(q, |q| - 1)
  }

  /** `price_level::append` */
  function AppendPool(pool: seq<Node>, lv: PriceLevel, n: nat): (r: seq<Node>)
    requires n < |pool| && (lv.tail.Ref? ==> lv.tail.at < |pool|)
    ensures |r| == |pool|
  {
    var p := pool[n := pool[n].(prev := lv.tail, next := Null)];
    if lv.tail.Ref? then p[lv.tail.at := p[lv.tail.at].(next := Ref(n))] else p
  }

  function AppendLevel(lv: PriceLevel, n: nat, qty: nat): PriceLevel {
    PriceLevel(lv.price, lv.total + qty, if lv.tail.Ref? then lv.head else Ref(n), Ref(n))
  }

  /** What appending makes of node `m`. */
  lemma {:induction false} AppendEffect(pool: seq<Node>, lv: PriceLevel, q: seq<nat>, n: nat, m: nat)
    requires Chain(pool, q) && Ends(lv, q) && n < |pool| && n !in q && m < |pool|
    ensures lv.tail.Ref? ==> lv.tail.at < |pool|
    ensures AppendPool(pool, lv, n)[m] ==
            if m == n then Node(pool[m].order, Null, At(q, |q| - 1))
            else if q != [] && m == q[|q| - 1] then pool[m].(next := Ref(n))
            else pool[m]
  {
    assert q != [] ==> q[|q| - 1] in q;
  }

  lemma {:induction false} AppendLinks(pool: seq<Node>, lv: PriceLevel, q: seq<nat>, n: nat, i: nat)
    requires Chain(pool, q) && Ends(lv, q) && n < |pool| && n !in q && i < |q|
    ensures lv.tail.Ref? ==> lv.tail.at < |pool|
    ensures var m := AppendPool(pool, lv, n)[q[i]];
            m.next == (if i + 1 < |q| then Ref(q[i + 1]) else Ref(n)) && m.prev == At(q, i - 1)
  {
    AppendEffect(pool, lv, q, n, q[i]);
    assert q[i] in q;
    assert q[i] == q[|q| - 1] <==> i == |q| - 1;
  }

  lemma {:induction false} AppendChain(pool: seq<Node>, lv: PriceLevel, q: seq<nat>, n: nat)
    requires Chain(pool, q) && Ends(lv, q) && n < |pool| && n !in q
    ensures lv.tail.Ref? ==> lv.tail.at < |pool|
    ensures Chain(AppendPool(pool, lv, n), q + [n])
  {
    AppendEffect(pool, lv, q, n, n);
    var p, r := AppendPool(pool, lv, n), q + [n];
    assert forall i :: 0 <= i < |r| ==> r[i] < |p|;
    forall i {:trigger p[r[i]]} | 0 <= i < |r|
      ensures p[r[i]].next == At(r, i + 1) && p[r[i]].prev == At(r, i - 1)
    {
      if i < |q| {
        AppendLinks(pool, lv, q, n, i);
      }
    }
  }

  lemma {:induction false} AppendFrame(pool: seq<Node>, lv: PriceLevel, q: seq<nat>, n: nat)
    requires Chain(pool, q) && Ends(lv, q) && n < |pool| && n !in q
    ensures lv.tail.Ref? ==> lv.tail.at < |pool|
    ensures forall m :: 0 <= m < |pool| && m !in q && m != n ==> AppendPool(pool, lv, n)[m] == pool[m]
    ensures forall m :: 0 <= m < |pool| ==> AppendPool(pool, lv, n)[m].order == pool[m].order
  {
    assert lv.tail.Ref? ==> lv.tail.at < |pool|;
    forall m | 0 <= m < |pool|
      ensures m !in q && m != n ==> AppendPool(pool, lv, n)[m] == pool[m]
      ensures AppendPool(pool, lv, n)[m].order == pool[m].order
    {
      AppendEffect(pool, lv, q, n, m);
    }
  }

  /** The node and the neighbours it names exist. */
  predicate RemoveDefinedFor(pool: seq<Node>, n: nat) {
    && n < |pool|
    && (pool[n].prev.Ref? ==> pool[n].prev.at < |pool|)
    && (pool[n].next.Ref? ==> pool[n].next.at < |pool|)
  }

  /** `price_level::remove` */
  function RemovePool(pool: seq<Node>, n: nat): (r: seq<Node>)
    requires RemoveDefinedFor(pool, n)
    ensures |r| == |pool|
  {
    var prev, next := pool[n].prev, pool[n].next;
    var p1 := if prev.Ref? then pool[prev.at := pool[prev.at].(next := next)] else pool;
    var p2 := if next.Ref? then p1[next.at := p1[next.at].(prev := prev)] else p1;
    p2[n := p2[n].(prev := Null, next := Null)]
  }

  function RemoveLevel(pool: seq<Node>, lv: PriceLevel, n: nat, qty: nat): PriceLevel
    requires n < |pool| && qty <= lv.total
  {
    PriceLevel(lv.price, lv.total - qty,
               if pool[n].prev.Ref? then lv.head else pool[n].next,
               if pool[n].next.Ref? then lv.tail else pool[n].prev)
  }

  function Without(q: seq<nat>, k: nat): (r: seq<nat>)
    requires k < |q|
    ensures |r| == |q| - 1
    ensures forall i :: 0 <= i < |r| ==> r[i] == q[if i < k then i else i + 1]
  {
    q[..k] + q[k + 1..]
  }

  lemma {:induction false} RemoveDefined(pool: seq<Node>, q: seq<nat>, k: nat)
    requires Chain(pool, q) && k < |q|
    ensures q[k] < |pool|
    ensures pool[q[k]].prev == if k > 0 then Ref(q[k - 1]) else Null
    ensures pool[q[k]].next == if k + 1 < |q| then Ref(q[k + 1]) else Null
    ensures k > 0 ==> q[k - 1] < |pool|
    ensures k + 1 < |q| ==> q[k + 1] < |pool|
  {
  }

  /** What removal leaves of node `m`. */
  lemma {:induction false} RemoveEffect(pool: seq<Node>, q: seq<nat>, k: nat, m: nat)
    requires Chain(pool, q) && k < |q| && m < |pool|
    ensures RemoveDefinedFor(pool, q[k])
    ensures RemovePool(pool, q[k])[m] ==
            Node(pool[m].order,
                 if m == q[k] then Null else if k > 0 && m == q[k - 1] then At(q, k + 1) else pool[m].next,
                 if m == q[k] then Null else if k + 1 < |q| && m == q[k + 1] then At(q, k - 1) else pool[m].prev)
  {
    RemoveDefined(pool, q, k);
    assert k > 0 ==> q[k - 1] != q[k];
    assert k + 1 < |q| ==> q[k + 1] != q[k];
    assert k > 0 && k + 1 < |q| ==> q[k - 1] != q[k + 1];
  }

  lemma {:induction false} DistinctWithout(q: seq<nat>, k: nat)
    requires Distinct(q) && k < |q|
    ensures Distinct(Without(q, k)) && q[k] !in Without(q, k)
    ensures forall m :: m in Without(q, k) ==> m in q
  {
    var r := Without(q, k);
    assert forall i :: 0 <= i < |r| ==> r[i] == q[if i < k then i else i + 1];
  }

  lemma {:induction false} RemoveRelinks(pool: seq<Node>, q: seq<nat>, k: nat, j: nat)
    requires Chain(pool, q) && k < |q| && j < |q| && j != k
    ensures RemoveDefinedFor(pool, q[k]) && q[j] < |pool|
    ensures var m := RemovePool(pool, q[k])[q[j]];
            && m.next == At(q, if j + 1 == k then k + 1 else j + 1)
            && m.prev == At(q, if j == k + 1 then k - 1 else j - 1)
  {
    RemoveEffect(pool, q, k, q[j]);
    assert k > 0 ==> (q[j] == q[k - 1] <==> j == k - 1);
    assert k + 1 < |q| ==> (q[j] == q[k + 1] <==> j == k + 1);
  }

  lemma {:induction false} RemoveChainFor(pool: seq<Node>, q: seq<nat>, k: nat, r: seq<nat>, p: seq<Node>)
    requires Chain(pool, q) && k < |q|
    requires |r| == |q| - 1 && forall i :: 0 <= i < |r| ==> r[i] == q[if i < k then i else i + 1]
    requires RemoveDefinedFor(pool, q[k]) && p == RemovePool(pool, q[k])
    ensures Chain(p, r)
  {
    assert forall i :: 0 <= i < |r| ==> r[i] < |p|;
    forall i {:trigger p[r[i]]} | 0 <= i < |r|
      ensures p[r[i]].next == At(r, i + 1) && p[r[i]].prev == At(r, i - 1)
    {
      RemoveRelinks(pool, q, k, if i < k then i else i + 1);
    }
  }

  lemma {:induction false} RemoveChain(pool: seq<Node>, q: seq<nat>, k: nat)
    requires Chain(pool, q) && k < |q|
    ensures RemoveDefinedFor(pool, q[k])
    ensures Chain(RemovePool(pool, q[k]), Without(q, k))
  {
    RemoveDefined(pool, q, k);
    RemoveChainFor(pool, q, k, Without(q, k), RemovePool(pool, q[k]));
  }

  lemma {:induction false} RemoveFrame(pool: seq<Node>, q: seq<nat>, k: nat)
    requires Chain(pool, q) && k < |q|
    ensures RemoveDefinedFor(pool, q[k])
    ensures forall m :: 0 <= m < |pool| && m !in q ==> RemovePool(pool, q[k])[m] == pool[m]
    ensures forall m :: 0 <= m < |pool| ==> RemovePool(pool, q[k])[m].order == pool[m].order
  {
    RemoveDefined(pool, q, k);
    forall m | 0 <= m < |pool|
      ensures m !in q ==> RemovePool(pool, q[k])[m] == pool[m]
      ensures RemovePool(pool, q[k])[m].order == pool[m].order
    {
      RemoveEffect(pool, q, k, m);
    }
  }

  lemma {:induction false} RemoveEnds(pool: seq<Node>, lv: PriceLevel, q: seq<nat>, k: nat, qty: nat)
    requires Chain(pool, q) && Ends(lv, q) && k < |q| && q[k] < |pool| && qty <= lv.total
    ensures Ends(RemoveLevel(pool, lv, q[k], qty), Without(q, k))
  {
    RemoveDefined(pool, q, k);
  }

  // ----- Price levels

  ghost predicate LevelOk(pool: seq<Node>, objs: seq<Order>, s: Side, lv: PriceLevel, q: seq<nat>) {
    && q != []
    && Chain(pool, q)
    && Ends(lv, q)
    && lv.total == Total(QueueOrders(pool, objs, q))
    && forall i {:trigger HasOrder(pool, objs, q[i])} {:trigger OrderAt(pool, objs, q[i])} :: 0 <= i < |q| ==>
         && HasOrder(pool, objs, q[i]) && OrderAt(pool, objs, q[i]).side == s
         && OrderAt(pool, objs, q[i]).price == lv.price
  }

  /** The second memory shows the same node and the same order object at `n`. */
  ghost predicate SameAt(pool: seq<Node>, objs: seq<Order>, pool': seq<Node>, objs': seq<Order>, n: nat) {
    && HasOrder(pool, objs, n) && HasOrder(pool', objs', n)
    && pool'[n] == pool[n]
    && OrderAt(pool', objs', n) == OrderAt(pool, objs, n)
  }

  ghost predicate SameOn(pool: seq<Node>, objs: seq<Order>, pool': seq<Node>, objs': seq<Order>, q: seq<nat>) {
    forall i {:trigger SameAt(pool, objs, pool', objs', q[i])} :: 0 <= i < |q| ==>
      SameAt(pool, objs, pool', objs', q[i])
  }

  lemma LevelFrame(pool: seq<Node>, objs: seq<Order>, pool': seq<Node>, objs': seq<Order>,
                   s: Side, lv: PriceLevel, q: seq<nat>)
    requires LevelOk(pool, objs, s, lv, q)
    requires SameOn(pool, objs, pool', objs', q)
    ensures QueueOrders(pool', objs', q) == QueueOrders(pool, objs, q)
    ensures LevelOk(pool', objs', s, lv, q)
  {
    forall i | 0 <= i < |q|
      ensures QueueOrders(pool', objs', q)[i] == QueueOrders(pool, objs, q)[i]
    {
      assert SameAt(pool, objs, pool', objs', q[i]);
    }
    assert QueueOrders(pool', objs', q) == QueueOrders(pool, objs, q);
    forall i | 0 <= i < |q|
      ensures q[i] < |pool'|
    {
      assert SameAt(pool, objs, pool', objs', q[i]);
    }
    forall i {:trigger pool'[q[i]]} | 0 <= i < |q|
      ensures pool'[q[i]].next == At(q, i + 1) && pool'[q[i]].prev == At(q, i - 1)
    {
      assert SameAt(pool, objs, pool', objs', q[i]);
    }
    forall i {:trigger HasOrder(pool', objs', q[i])} | 0 <= i < |q|
      ensures HasOrder(pool', objs', q[i]) && OrderAt(pool', objs', q[i]).side == s
              && OrderAt(pool', objs', q[i]).price == lv.price
    {
      assert SameAt(pool, objs, pool', objs', q[i]);
    }
  }

  // ----- One side of the book

  ghost predicate LevelsSorted(levels: seq<PriceLevel>, s: Side) {
    forall i, j :: 0 <= i < j < |levels| ==> Better(s, levels[i].price, levels[j].price)
  }

  ghost predicate SideOk(pool: seq<Node>, objs: seq<Order>, s: Side, levels: seq<PriceLevel>, qs: seq<seq<nat>>) {
    && |levels| == |qs|
    && LevelsSorted(levels, s)
    && forall l :: 0 <= l < |levels| ==> LevelOk(pool, objs, s, levels[l], qs[l])
  }

  ghost function SideLevels(pool: seq<Node>, objs: seq<Order>, levels: seq<PriceLevel>,
                            qs: seq<seq<nat>>): (r: seq<Level>)
    requires |levels| == |qs|
    ensures |r| == |levels|
  {
    seq(|levels|, l requires 0 <= l < |levels| => Level(levels[l].price, QueueOrders(pool, objs, qs[l])))
  }

  ghost predicate SameSide(pool: seq<Node>, objs: seq<Order>, pool': seq<Node>, objs': seq<Order>, qs: seq<seq<nat>>) {
    forall l :: 0 <= l < |qs| ==> SameOn(pool, objs, pool', objs', qs[l])
  }

  lemma SideFrame(pool: seq<Node>, objs: seq<Order>, pool': seq<Node>, objs': seq<Order>,
                  s: Side, levels: seq<PriceLevel>, qs: seq<seq<nat>>)
    requires SideOk(pool, objs, s, levels, qs)
    requires SameSide(pool, objs, pool', objs', qs)
    ensures SideOk(pool', objs', s, levels, qs)
    ensures SideLevels(pool', objs', levels, qs) == SideLevels(pool, objs, levels, qs)
  {
    forall l | 0 <= l < |levels|
      ensures LevelOk(pool', objs', s, levels[l], qs[l])
      ensures SideLevels(pool', objs', levels, qs)[l] == SideLevels(pool, objs, levels, qs)[l]
    {
      LevelFrame(pool, objs, pool', objs', s, levels[l], qs[l]);
    }
  }

  ghost function Erase<T>(s: seq<T>, i: nat): (r: seq<T>)
    requires i < |s|
    ensures |r| == |s| - 1
    ensures forall l :: 0 <= l < |r| ==> r[l] == s[if l < i then l else l + 1]
  {
    s[..i] + s[i + 1..]
  }

  ghost function Insert<T>(s: seq<T>, i: nat, x: T): (r: seq<T>)
    requires i <= |s|
    ensures |r| == |s| + 1 && r[i] == x
    ensures forall l :: 0 <= l < |r| && l != i ==> r[l] == s[if l < i then l else l - 1]
  {
    s[..i] + [x] + s[i..]
  }

  lemma {:induction false} SortedErase(levels: seq<PriceLevel>, s: Side, i: nat)
    requires LevelsSorted(levels, s) && i < |levels|
    ensures LevelsSorted(Erase(levels, i), s)
  {
  }

  lemma {:induction false} SortedInsert(levels: seq<PriceLevel>, s: Side, i: nat, lv: PriceLevel)
    requires LevelsSorted(levels, s) && i <= |levels|
    requires forall k :: 0 <= k < i ==> Better(s, levels[k].price, lv.price)
    requires forall k :: i <= k < |levels| ==> Better(s, lv.price, levels[k].price)
    ensures LevelsSorted(Insert(levels, i, lv), s)
  {
  }

  /** Erasing one level, the nodes of the others untouched. */
  lemma {:induction false} SideErase(pool: seq<Node>, objs: seq<Order>, pool': seq<Node>, objs': seq<Order>,
                                     s: Side, levels: seq<PriceLevel>, qs: seq<seq<nat>>, i: nat)
    requires SideOk(pool, objs, s, levels, qs) && i < |levels|
    requires forall l :: 0 <= l < |qs| && l != i ==> SameOn(pool, objs, pool', objs', qs[l])
    ensures SideOk(pool', objs', s, Erase(levels, i), Erase(qs, i))
    ensures SideLevels(pool', objs', Erase(levels, i), Erase(qs, i)) == Erase(SideLevels(pool, objs, levels, qs), i)
  {
    var ls, ks := Erase(levels, i), Erase(qs, i);
    var abs, abs' := SideLevels(pool, objs, levels, qs), SideLevels(pool', objs', ls, ks);
    SortedErase(levels, s, i);
    forall l | 0 <= l < |ls|
      ensures LevelOk(pool', objs', s, ls[l], ks[l])
      ensures abs'[l] == abs[if l < i then l else l + 1]
    {
      var j := if l < i then l else l + 1;
      LevelFrame(pool, objs, pool', objs', s, levels[j], qs[j]);
    }
  }

  /** Inserting one level, the nodes of the others untouched. */
  lemma {:induction false} SideInsert(pool: seq<Node>, objs: seq<Order>, pool': seq<Node>, objs': seq<Order>,
                                      s: Side, levels: seq<PriceLevel>, qs: seq<seq<nat>>, i: nat, lv: PriceLevel,
                                      q: seq<nat>)
    requires SideOk(pool, objs, s, levels, qs) && i <= |levels|
    requires SameSide(pool, objs, pool', objs', qs)
    requires LevelOk(pool', objs', s, lv, q)
    requires forall k :: 0 <= k < i ==> Better(s, levels[k].price, lv.price)
    requires forall k :: i <= k < |levels| ==> Better(s, lv.price, levels[k].price)
    ensures SideOk(pool', objs', s, Insert(levels, i, lv), Insert(qs, i, q))
    ensures SideLevels(pool', objs', Insert(levels, i, lv), Insert(qs, i, q))
            == Insert(SideLevels(pool, objs, levels, qs), i, Level(lv.price, QueueOrders(pool', objs', q)))
  {
    var ls, ks := Insert(levels, i, lv), Insert(qs, i, q);
    var abs, abs' := SideLevels(pool, objs, levels, qs), SideLevels(pool', objs', ls, ks);
    SortedInsert(levels, s, i, lv);
    forall l | 0 <= l < |ls| && l != i
      ensures LevelOk(pool', objs', s, ls[l], ks[l])
      ensures abs'[l] == abs[if l < i then l else l - 1]
    {
      var j := if l < i then l else l - 1;
      LevelFrame(pool, objs, pool', objs', s, levels[j], qs[j]);
    }
  }

  /** Replacing one level at the same price, the nodes of the others untouched. */
  lemma SideUpdate(pool: seq<Node>, objs: seq<Order>, pool': seq<Node>, objs': seq<Order>,
                   s: Side, levels: seq<PriceLevel>, qs: seq<seq<nat>>, i: nat, lv: PriceLevel, q: seq<nat>)
    requires SideOk(pool, objs, s, levels, qs) && i < |levels|
    requires forall l :: 0 <= l < |qs| && l != i ==> SameOn(pool, objs, pool', objs', qs[l])
    requires lv.price == levels[i].price && LevelOk(pool', objs', s, lv, q)
    ensures SideOk(pool', objs', s, levels[i := lv], qs[i := q])
    ensures SideLevels(pool', objs', levels[i := lv], qs[i := q])
            == SideLevels(pool, objs, levels, qs)[i := Level(lv.price, QueueOrders(pool', objs', q))]
  {
    var ls, ks := levels[i := lv], qs[i := q];
    var abs := SideLevels(pool, objs, levels, qs);
    var l' := Level(lv.price, QueueOrders(pool', objs', q));
    forall l | 0 <= l < |ls|
      ensures LevelOk(pool', objs', s, ls[l], ks[l])
      ensures SideLevels(pool', objs', ls, ks)[l] == abs[i := l'][l]
    {
      if l != i {
        LevelFrame(pool, objs, pool', objs', s, levels[l], qs[l]);
      }
    }
  }
}
