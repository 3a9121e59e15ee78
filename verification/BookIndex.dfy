/** The id index against the represented book: an id is indexed exactly when an order of the
    book carries it, and removing the indexed node is cancelling that id.
 */
module BookIndex {
  import opened PriceTimeBook
  import opened BookTheorems
  import opened NodeLists
  import opened BookMemory

  /** New order objects change nothing that is linked. */
  lemma {:induction false} MoreObjects(m: Memory, t: Threads, held: set<nat>, objs': seq<Order>)
    requires Ok(m, t, held) && |m.objs| <= |objs'| && objs'[..|m.objs|] == m.objs
    ensures Ok(m.(objs := objs'), t, held)
    ensures Abstract(m.(objs := objs'), t) == Abstract(m, t)
  {
    assert forall p :: 0 <= p < |m.objs| ==> objs'[p] == m.objs[p];
    AllSame(m, t, held, m.pool, objs');
    SideFrame(m.pool, m.objs, m.pool, objs', Buy, m.bids, t.bids);
    SideFrame(m.pool, m.objs, m.pool, objs', Sell, m.asks, t.asks);
    forall k | 0 <= k < |m.pool| && m.pool[k].order.Ref?
      ensures HasOrder(m.pool, objs', k) && OrderAt(m.pool, objs', k) == OrderAt(m.pool, m.objs, k)
    {
    }
    OkIntro(m.(objs := objs'), t, held, Buy);
  }

  // ----- Ids and positions

  ghost predicate IdAt(levels: seq<Level>, id: nat, i: nat, j: nat) {
    i < |levels| && j < |levels[i].orders| && levels[i].orders[j].id == id
  }

  ghost predicate HasIdAt(levels: seq<Level>, id: nat) {
    exists i: nat, j: nat :: IdAt(levels, id, i, j)
  }

  lemma {:induction false} FlattenHasId(levels: seq<Level>, id: nat)
    ensures HasId(Flatten(levels), id) <==> HasIdAt(levels, id)
  {
    if levels != [] {
      var rest, orders := levels[1..], levels[0].orders;
      FlattenHasId(rest, id);
      var f := Flatten(levels);
      if HasId(f, id) {
        var k :| 0 <= k < |f| && f[k].id == id;
        if k < |orders| {
          assert IdAt(levels, id, 0, k);
        } else {
          assert Flatten(rest)[k - |orders|].id == id;
          var i: nat, j: nat :| IdAt(rest, id, i, j);
          assert IdAt(levels, id, i + 1, j);
        }
      }
      if HasIdAt(levels, id) {
        var i: nat, j: nat :| IdAt(levels, id, i, j);
        if i == 0 {
          assert f[j].id == id;
        } else {
          assert IdAt(rest, id, i - 1, j);
          var k :| 0 <= k < |Flatten(rest)| && Flatten(rest)[k].id == id;
          assert f[|orders| + k].id == id;
        }
      }
    }
  }

  lemma {:induction false} OrdersHaveId(b: Book, id: nat)
    ensures HasId(Orders(b), id) <==> HasIdAt(b.bids, id) || HasIdAt(b.asks, id)
  {
    FlattenHasId(b.bids, id);
    FlattenHasId(b.asks, id);
    var bids, asks := Flatten(b.bids), Flatten(b.asks);
    assert HasId(bids, id) ==> HasId(bids + asks, id) by {
      if HasId(bids, id) {
        var k :| 0 <= k < |bids| && bids[k].id == id;
        assert (bids + asks)[k].id == id;
      }
    }
    assert HasId(asks, id) ==> HasId(bids + asks, id) by {
      if HasId(asks, id) {
        var k :| 0 <= k < |asks| && asks[k].id == id;
        assert (bids + asks)[|bids| + k].id == id;
      }
    }
    if HasId(bids + asks, id) {
      var k :| 0 <= k < |bids + asks| && (bids + asks)[k].id == id;
      assert if k < |bids| then bids[k].id == id else asks[k - |bids|].id == id;
    }
  }

  /** The node at a position of the represented book. */
  lemma {:induction false} NodeAtPosition(m: Memory, t: Threads, held: set<nat>, s: Side, id: nat, i: nat, j: nat)
    requires Ok(m, t, held) && IdAt(AbstractSide(m, t, s), id, i, j)
    ensures j < |t.Of(s)[i]| && HasOrder(m.pool, m.objs, t.Of(s)[i][j])
    ensures OrderAt(m.pool, m.objs, t.Of(s)[i][j]) == AbstractSide(m, t, s)[i].orders[j]
    ensures id in m.index && m.index[id] == t.Of(s)[i][j]
  {
    OkSide(m, t, held, s);
    assert LevelOk(m.pool, m.objs, s, m.Of(s)[i], t.Of(s)[i]);
    assert HasOrder(m.pool, m.objs, t.Of(s)[i][j]);
  }

  /** The position of an indexed node. */
  lemma {:induction false} PositionOfNode(m: Memory, t: Threads, held: set<nat>, id: nat) returns (i: nat, j: nat)
    requires Ok(m, t, held) && id in m.index
    ensures var s := OrderAt(m.pool, m.objs, m.index[id]).side;
            && i < |t.Of(s)| && j < |t.Of(s)[i]| && t.Of(s)[i][j] == m.index[id]
            && m.Of(s)[i].price == OrderAt(m.pool, m.objs, m.index[id]).price
            && IdAt(AbstractSide(m, t, s), id, i, j)
  {
    var n := m.index[id];
    assert HasOrder(m.pool, m.objs, n);
    var s := OrderAt(m.pool, m.objs, n).side;
    assert Linked(t.Of(s), n);
    i :| 0 <= i < |t.Of(s)| && n in t.Of(s)[i];
    j :| 0 <= j < |t.Of(s)[i]| && t.Of(s)[i][j] == n;
    OkSide(m, t, held, s);
    assert LevelOk(m.pool, m.objs, s, m.Of(s)[i], t.Of(s)[i]);
    assert OrderAt(m.pool, m.objs, t.Of(s)[i][j]).price == m.Of(s)[i].price;
  }

  /** The index is the set of ids in the represented book. */
  lemma {:induction false} IndexedIffPresent(m: Memory, t: Threads, held: set<nat>, id: nat)
    requires Ok(m, t, held)
    ensures id in m.index <==> HasId(Orders(Abstract(m, t)), id)
  {
    OrdersHaveId(Abstract(m, t), id);
    var b := Abstract(m, t);
    assert AbstractSide(m, t, Buy) == b.bids && AbstractSide(m, t, Sell) == b.asks;
    if id in m.index {
      var i, j := PositionOfNode(m, t, held, id);
    }
    if HasIdAt(b.bids, id) {
      var i: nat, j: nat :| IdAt(b.bids, id, i, j);
      NodeAtPosition(m, t, held, Buy, id, i, j);
    }
    if HasIdAt(b.asks, id) {
      var i: nat, j: nat :| IdAt(b.asks, id, i, j);
      NodeAtPosition(m, t, held, Sell, id, i, j);
    }
  }

  // ----- Removing a node is cancelling its id

  lemma {:induction false} WithoutIdNone(orders: seq<Order>, id: nat)
    requires forall j :: 0 <= j < |orders| ==> orders[j].id != id
    ensures WithoutId(orders, id) == orders
  {
    if orders != [] {
      WithoutIdNone(orders[1..], id);
    }
  }

  lemma {:induction false} WithoutIdOne(orders: seq<Order>, id: nat, k: nat)
    requires k < |orders| && forall j :: 0 <= j < |orders| ==> (orders[j].id == id <==> j == k)
    ensures WithoutId(orders, id) == orders[..k] + orders[k + 1..]
  {
    if k == 0 {
      WithoutIdNone(orders[1..], id);
    } else {
      WithoutIdOne(orders[1..], id, k - 1);
      assert orders[..k] == [orders[0]] + orders[1..][..k - 1];
      assert orders[1..][k..] == orders[k + 1..];
    }
  }

  lemma {:induction false} DropIdNone(levels: seq<Level>, id: nat)
    requires forall i: nat, j: nat :: !IdAt(levels, id, i, j)
    requires forall i :: 0 <= i < |levels| ==> levels[i].orders != []
    ensures DropId(levels, id) == levels
  {
    if levels != [] {
      forall j | 0 <= j < |levels[0].orders|
        ensures levels[0].orders[j].id != id
      {
        assert !IdAt(levels, id, 0, j);
      }
      WithoutIdNone(levels[0].orders, id);
      forall i: nat, j: nat
        ensures !IdAt(levels[1..], id, i, j)
      {
        assert !IdAt(levels, id, i + 1, j);
      }
      DropIdNone(levels[1..], id);
    }
  }

  lemma {:induction false} EraseBehind(head: Level, rest: seq<Level>, l: nat)
    requires l < |rest|
    ensures ([head] + rest)[..l + 1] + ([head] + rest)[l + 2..] == [head] + (rest[..l] + rest[l + 1..])
  {
    assert ([head] + rest)[..l + 1] == [head] + rest[..l];
    assert ([head] + rest)[l + 2..] == rest[l + 1..];
  }

  lemma {:induction false} SetBehind(head: Level, rest: seq<Level>, l: nat, level: Level)
    requires l < |rest|
    ensures ([head] + rest)[l + 1 := level] == [head] + rest[l := level]
  {
  }

  lemma {:induction false} RemoveBehind(head: Level, rest: seq<Level>, l: nat, k: nat)
    requires l < |rest| && k < |rest[l].orders|
    ensures RemoveAt([head] + rest, l + 1, k) == [head] + RemoveAt(rest, l, k)
  {
    assert ([head] + rest)[l + 1] == rest[l];
    if |rest[l].orders| == 1 {
      EraseBehind(head, rest, l);
    } else {
      SetBehind(head, rest, l, Level(rest[l].price, rest[l].orders[..k] + rest[l].orders[k + 1..]));
    }
  }

  lemma {:induction false} DropIdHere(head: Level, rest: seq<Level>, id: nat, k: nat)
    requires k < |head.orders| && (forall j :: 0 <= j < |head.orders| ==> (head.orders[j].id == id <==> j == k))
    requires DropId(rest, id) == rest
    ensures DropId([head] + rest, id) == RemoveAt([head] + rest, 0, k)
  {
    WithoutIdOne(head.orders, id, k);
    assert ([head] + rest)[1..] == rest;
  }

  lemma {:induction false} DropIdThere(head: Level, rest: seq<Level>, id: nat, l: nat, k: nat)
    requires head.orders != [] && (forall j :: 0 <= j < |head.orders| ==> head.orders[j].id != id)
    requires l < |rest| && k < |rest[l].orders| && DropId(rest, id) == RemoveAt(rest, l, k)
    ensures DropId([head] + rest, id) == RemoveAt([head] + rest, l + 1, k)
  {
    WithoutIdNone(head.orders, id);
    RemoveBehind(head, rest, l, k);
    assert ([head] + rest)[1..] == rest;
  }

  lemma {:induction false} DropIdOne(levels: seq<Level>, id: nat, l: nat, k: nat)
    requires IdAt(levels, id, l, k)
    requires forall i: nat, j: nat :: IdAt(levels, id, i, j) ==> i == l && j == k
    requires forall i :: 0 <= i < |levels| ==> levels[i].orders != []
    ensures DropId(levels, id) == RemoveAt(levels, l, k)
  {
    var head, rest := levels[0], levels[1..];
    assert levels == [head] + rest;
    forall i: nat, j: nat | IdAt(rest, id, i, j)
      ensures i + 1 == l && j == k
    {
      assert IdAt(levels, id, i + 1, j);
    }
    forall j | 0 <= j < |head.orders|
      ensures head.orders[j].id == id <==> l == 0 && j == k
    {
      assert head.orders[j].id == id ==> IdAt(levels, id, 0, j);
    }
    if l == 0 {
      DropIdNone(rest, id);
      DropIdHere(head, rest, id, k);
    } else {
      assert IdAt(rest, id, l - 1, k);
      DropIdOne(rest, id, l - 1, k);
      DropIdThere(head, rest, id, l - 1, k);
    }
  }

  /** Unlinking the node at a position cancels the id it carries. */
  lemma {:induction false} RemoveIsCancel(m: Memory, t: Threads, s: Side, id: nat, l: nat, k: nat)
    requires Ok(m, t, {}) && IdAt(AbstractSide(m, t, s), id, l, k)
    ensures DropId(AbstractSide(m, t, s), id) == RemoveAt(AbstractSide(m, t, s), l, k)
    ensures DropId(AbstractSide(m, t, s.Opposite()), id) == AbstractSide(m, t, s.Opposite())
  {
    OnePosition(m, t, s, id, l, k);
    NoPosition(m, t, s, id, l, k);
    NoEmptyLevel(m, t, s);
    NoEmptyLevel(m, t, s.Opposite());
    DropIdOne(AbstractSide(m, t, s), id, l, k);
    DropIdNone(AbstractSide(m, t, s.Opposite()), id);
  }

  lemma {:induction false} NoEmptyLevel(m: Memory, t: Threads, s: Side)
    requires Ok(m, t, {})
    ensures forall i :: 0 <= i < |AbstractSide(m, t, s)| ==> AbstractSide(m, t, s)[i].orders != []
  {
    OkSide(m, t, {}, s);
    forall i | 0 <= i < |AbstractSide(m, t, s)|
      ensures AbstractSide(m, t, s)[i].orders != []
    {
      assert LevelOk(m.pool, m.objs, s, m.Of(s)[i], t.Of(s)[i]);
    }
  }

  lemma {:induction false} OnePosition(m: Memory, t: Threads, s: Side, id: nat, l: nat, k: nat)
    requires Ok(m, t, {}) && IdAt(AbstractSide(m, t, s), id, l, k)
    ensures forall i: nat, j: nat :: IdAt(AbstractSide(m, t, s), id, i, j) ==> i == l && j == k
  {
    NodeAtPosition(m, t, {}, s, id, l, k);
    forall i: nat, j: nat | IdAt(AbstractSide(m, t, s), id, i, j)
      ensures i == l && j == k
    {
      NodeAtPosition(m, t, {}, s, id, i, j);
      SamePosition(m, t, s, i, j, l, k);
    }
  }

  lemma {:induction false} FlatPosition(levels: seq<Level>, i: nat) returns (l: nat, k: nat)
    requires i < |Flatten(levels)|
    ensures l < |levels| && k < |levels[l].orders| && levels[l].orders[k] == Flatten(levels)[i]
    ensures i == |Flatten(levels[..l])| + k
  {
    var n := |levels[0].orders|;
    if i < n {
      l, k := 0, i;
      assert levels[..0] == [];
    } else {
      l, k := FlatPosition(levels[1..], i - n);
      l := l + 1;
      assert levels[..l][1..] == levels[1..][..l - 1];
    }
  }

  /** No id is twice on a side of the represented book. */
  lemma {:induction false} FlatDistinct(m: Memory, t: Threads, s: Side, i: nat, j: nat)
    requires Ok(m, t, {}) && i < j < |Flatten(AbstractSide(m, t, s))|
    ensures Flatten(AbstractSide(m, t, s))[i].id != Flatten(AbstractSide(m, t, s))[j].id
  {
    var levels := AbstractSide(m, t, s);
    var l, k := FlatPosition(levels, i);
    var l', k' := FlatPosition(levels, j);
    if Flatten(levels)[i].id == Flatten(levels)[j].id {
      var id := Flatten(levels)[i].id;
      assert IdAt(levels, id, l, k) && IdAt(levels, id, l', k');
      OnePosition(m, t, s, id, l, k);
      assert false;
    }
  }

  lemma {:induction false} NoPosition(m: Memory, t: Threads, s: Side, id: nat, l: nat, k: nat)
    requires Ok(m, t, {}) && IdAt(AbstractSide(m, t, s), id, l, k)
    ensures forall i: nat, j: nat :: !IdAt(AbstractSide(m, t, s.Opposite()), id, i, j)
  {
    var o := s.Opposite();
    NodeAtPosition(m, t, {}, s, id, l, k);
    forall i: nat, j: nat
      ensures !IdAt(AbstractSide(m, t, o), id, i, j)
    {
      if IdAt(AbstractSide(m, t, o), id, i, j) {
        NodeAtPosition(m, t, {}, o, id, i, j);
        SidesDisjoint(m, t, {}, s, l, i);
        assert false;
      }
    }
  }

  lemma {:induction false} SamePosition(m: Memory, t: Threads, s: Side, i: nat, j: nat, l: nat, k: nat)
    requires Ok(m, t, {}) && i < |t.Of(s)| && j < |t.Of(s)[i]| && l < |t.Of(s)| && k < |t.Of(s)[l]|
    requires t.Of(s)[i][j] == t.Of(s)[l][k]
    ensures i == l && j == k
  {
    OkSide(m, t, {}, s);
    if i != l {
      LevelsDisjoint(m.pool, m.objs, s, m.Of(s), t.Of(s), i, l);
    } else {
      assert LevelOk(m.pool, m.objs, s, m.Of(s)[i], t.Of(s)[i]);
    }
  }

  /** The represented book is well formed. */
  lemma {:induction false} AbstractWf(m: Memory, t: Threads, held: set<nat>)
    requires Ok(m, t, held)
    ensures Wf(Abstract(m, t))
  {
    SideIsWf(m.pool, m.objs, Buy, m.bids, t.bids);
    SideIsWf(m.pool, m.objs, Sell, m.asks, t.asks);
  }

  lemma {:induction false} SideIsWf(pool: seq<Node>, objs: seq<Order>, s: Side, levels: seq<PriceLevel>,
                                    qs: seq<seq<nat>>)
    requires SideOk(pool, objs, s, levels, qs)
    ensures SideWf(SideLevels(pool, objs, levels, qs), s)
  {
    var abs := SideLevels(pool, objs, levels, qs);
    forall l | 0 <= l < |abs|
      ensures LevelWf(abs[l], s)
    {
      assert LevelOk(pool, objs, s, levels[l], qs[l]);
      forall k | 0 <= k < |qs[l]|
        ensures abs[l].orders[k].side == s && abs[l].orders[k].price == abs[l].price
      {
        assert OrderAt(pool, objs, qs[l][k]).side == s;
      }
    }
  }

  // ----- The order object behind an id

  /** The object that the node indexed under `id` carries. */
  ghost function ObjectOf(m: Memory, id: nat): nat {
    if id in m.index && m.index[id] < |m.pool| && m.pool[m.index[id]].order.Ref?
    then m.pool[m.index[id]].order.at else 0
  }

  /** The ids in `ids` are indexed in both memories, under the same objects. */
  ghost predicate SameObjects(m: Memory, m': Memory, ids: set<nat>) {
    ids <= m.index.Keys && ids <= m'.index.Keys && forall id :: id in ids ==> ObjectOf(m', id) == ObjectOf(m, id)
  }

  /** Allocation and insertion leave the object behind every earlier id in place. */
  lemma {:induction false} InsertedObjects(m0: Memory, m: Memory, m': Memory, n: nat, p: nat)
    requires IndexOk(m0.pool, m0.objs, m0.index)
    requires m.index == m0.index && m.objs == m0.objs && |m0.pool| <= |m.pool|
    requires forall k :: 0 <= k < |m0.pool| && m0.pool[k].order.Ref? ==> m.pool[k] == m0.pool[k]
    requires n < |m.pool| && m.pool[n].order.Null? && OnlyOrderOf(m.pool, m'.pool, n, Ref(p))
    requires p < |m.objs| && m.objs[p].id !in m.index && m'.index == m.index[m.objs[p].id := n]
    ensures ObjectOf(m', m.objs[p].id) == p
    ensures SameObjects(m0, m', m0.index.Keys)
  {
    forall id | id in m0.index
      ensures ObjectOf(m', id) == ObjectOf(m0, id)
    {
      assert HasOrder(m0.pool, m0.objs, m0.index[id]);
    }
  }

  lemma {:induction false} InsertIsRest(m: Memory, t: Threads, s: Side, i: nat, n: nat, p: nat, m': Memory, t': Threads)
    requires Ok(m, t, {n}) && n < |m.pool| && m.pool[n].order.Null?
    requires p < |m.objs| && m.objs[p].id !in m.index && m.objs[p].side == s
    requires SlotAt(m.Of(s), s, i, m.objs[p].price)
    requires var lv := JoinedLevel(m.Of(s), i, m.objs[p].price); lv.tail.Ref? ==> lv.tail.at < |m.pool|
    requires m' == InsertedMemory(m, s, i, n, p) && t' == InsertedThreads(m, t, s, i, n, m.objs[p].price)
    ensures Ok(m', t', {})
    ensures Abstract(m', t') == Abstract(m, t).With(s, Rest(Abstract(m, t).Of(s), m.objs[p]))
    ensures OnlyOrderOf(m.pool, m'.pool, n, Ref(p)) && m'.objs == m.objs && m'.index == m.index[m.objs[p].id := n]
  {
    InsertKeepsOk(m, t, s, i, n, p, m', t');
    InsertKeepsSides(m, t, s, i, n, p, m', t');
  }

  /** Allocation followed by linking: the whole effect of an insertion. */
  lemma {:induction false} InsertStep(m0: Memory, m: Memory, t: Threads, i: nat, n: nat, p: nat, m': Memory,
                                      t': Threads)
    requires Ok(m, t, {n}) && n < |m.pool| && m.pool[n].order.Null?
    requires p < |m.objs| && m.objs[p].id !in m.index
    requires SlotAt(m.Of(m.objs[p].side), m.objs[p].side, i, m.objs[p].price)
    requires var lv := JoinedLevel(m.Of(m.objs[p].side), i, m.objs[p].price); lv.tail.Ref? ==> lv.tail.at < |m.pool|
    requires m' == InsertedMemory(m, m.objs[p].side, i, n, p)
    requires t' == InsertedThreads(m, t, m.objs[p].side, i, n, m.objs[p].price)
    requires IndexOk(m0.pool, m0.objs, m0.index)
    requires m.index == m0.index && m.objs == m0.objs && |m0.pool| <= |m.pool|
    requires forall k :: 0 <= k < |m0.pool| && m0.pool[k].order.Ref? ==> m.pool[k] == m0.pool[k]
    ensures Ok(m', t', {})
    ensures var s := m.objs[p].side; Abstract(m', t') == Abstract(m, t).With(s, Rest(Abstract(m, t).Of(s), m.objs[p]))
    ensures ObjectOf(m', m.objs[p].id) == p
    ensures SameObjects(m0, m', m0.index.Keys)
    ensures m'.objs == m.objs && m'.index.Keys == m.index.Keys + {m.objs[p].id}
  {
    InsertIsRest(m, t, m.objs[p].side, i, n, p, m', t');
    InsertedObjects(m0, m, m', n, p);
  }

  /** A position of the structure: `n` is the `k`-th node of level `l` of side `s`. */
  ghost predicate NodeAt(t: Threads, s: Side, l: nat, k: nat, n: nat) {
    l < |t.Of(s)| && k < |t.Of(s)[l]| && t.Of(s)[l][k] == n
  }

  lemma {:induction false} NodeDefined(m: Memory, t: Threads, s: Side, l: nat, k: nat, n: nat)
    requires Ok(m, t, {}) && NodeAt(t, s, l, k, n)
    ensures |m.Of(s)| == |t.Of(s)| && RemoveDefinedFor(m.pool, n) && HasOrder(m.pool, m.objs, n)
    ensures OrderAt(m.pool, m.objs, n).remaining <= m.Of(s)[l].total
    ensures OrderAt(m.pool, m.objs, n).side == s && OrderAt(m.pool, m.objs, n).price == m.Of(s)[l].price
    ensures m.Of(s)[l].head == Ref(t.Of(s)[l][0])
    ensures AbstractSide(m, t, s)[l] == Level(m.Of(s)[l].price, AbstractSide(m, t, s)[l].orders)
    ensures k < |AbstractSide(m, t, s)[l].orders| && AbstractSide(m, t, s)[l].orders[k] == OrderAt(m.pool, m.objs, n)
  {
    OkSide(m, t, {}, s);
    var q := t.Of(s)[l];
    RemovedLevel(m.pool, m.objs, s, m.Of(s)[l], q, k, m.free);
    assert HasOrder(m.pool, m.objs, q[k]);
  }

  /** The whole effect of unlinking one node. */
  lemma {:induction false} RemoveStep(m: Memory, t: Threads, s: Side, l: nat, k: nat, n: nat)
    requires Ok(m, t, {}) && NodeAt(t, s, l, k, n)
    ensures |m.Of(s)| == |t.Of(s)| && RemoveDefinedFor(m.pool, n) && HasOrder(m.pool, m.objs, n)
    ensures OrderAt(m.pool, m.objs, n).remaining <= m.Of(s)[l].total
    ensures k < |AbstractSide(m, t, s)[l].orders|
    ensures var m', t' := RemovedMemory(m, s, l, n, OrderAt(m.pool, m.objs, n)), RemovedThreads(t, s, l, k);
            && Ok(m', t', {})
            && Abstract(m', t') == Abstract(m, t).With(s, RemoveAt(Abstract(m, t).Of(s), l, k))
            && SameObjects(m, m', m'.index.Keys)
            && t'.Of(s.Opposite()) == t.Of(s.Opposite())
  {
    NodeDefined(m, t, s, l, k, n);
    var m', t' := RemovedMemory(m, s, l, n, OrderAt(m.pool, m.objs, n)), RemovedThreads(t, s, l, k);
    RemoveKeepsOk(m, t, s, l, k, m', t');
    RemoveSame(m, t, s, l, k, m'.pool);
    RemovedObjects(m, m', n);
  }

  lemma {:induction false} RemovedObjects(m: Memory, m': Memory, n: nat)
    requires IndexOk(m.pool, m.objs, m.index) && HasOrder(m.pool, m.objs, n)
    requires OnlyOrderOf(m.pool, m'.pool, n, Null)
    requires m'.index == m.index - {OrderAt(m.pool, m.objs, n).id}
    ensures SameObjects(m, m', m'.index.Keys)
  {
    forall id | id in m'.index
      ensures ObjectOf(m', id) == ObjectOf(m, id)
    {
      assert HasOrder(m.pool, m.objs, m.index[id]) && m.index[id] != n;
    }
  }

  /** The whole effect of filling the front order of a side. */
  lemma {:induction false} FillStep(m: Memory, t: Threads, s: Side, n: nat, qty: nat, m': Memory)
    requires Ok(m, t, {}) && NodeAt(t, s, 0, 0, n) && m.Of(s) != []
    requires HasOrder(m.pool, m.objs, n) && qty <= OrderAt(m.pool, m.objs, n).remaining && qty <= m.Of(s)[0].total
    requires m' == FilledMemory(m, s, n, qty)
    ensures Ok(m', t, {})
    ensures var levels := Abstract(m, t).Of(s);
            && levels != [] && levels[0].orders != [] && qty <= levels[0].orders[0].remaining
            && Abstract(m', t) == Abstract(m, t).With(s, FillFront(levels, qty))
  {
    FillKeepsOk(m, t, s, qty, m');
  }

  // ----- What trades do to the order objects

  /** Object `p` is the one in the book under its id. */
  ghost predicate Live(m: Memory, p: nat) {
    p < |m.objs| && m.objs[p].id in m.index && ObjectOf(m, m.objs[p].id) == p
  }

  /** Both legs of every trade carry ids of the set. */
  ghost predicate TradesWithin(ts: seq<Trade>, ids: set<nat>) {
    forall k :: 0 <= k < |ts| ==> ts[k].bid.id in ids && ts[k].ask.id in ids
  }

  /** From `m` on, the objects lost exactly what the trades took, and only objects in the book traded. */
  ghost predicate FilledBy(m: Memory, objs': seq<Order>, ts: seq<Trade>) {
    && |objs'| == |m.objs|
    && TradesWithin(ts, m.index.Keys)
    && forall p :: 0 <= p < |objs'| ==>
         && objs'[p] == m.objs[p].(remaining := objs'[p].remaining)
         && m.objs[p].remaining == objs'[p].remaining + if Live(m, p) then Traded(ts, m.objs[p].id) else 0
  }

  lemma {:induction false} TradedAppend(ts: seq<Trade>, t: Trade, id: nat)
    ensures Traded(ts + [t], id) == Traded(ts, id) + Traded([t], id)
  {
    if ts == [] {
      assert ts + [t] == [t];
    } else {
      assert (ts + [t])[1..] == ts[1..] + [t];
      TradedAppend(ts[1..], t, id);
    }
  }

  lemma {:induction false} TradedOne(t: Trade, id: nat)
    ensures Traded([t], id) == (if t.bid.id == id then t.bid.qty else 0) + (if t.ask.id == id then t.ask.qty else 0)
  {
    assert [t][1..] == [];
  }

  /** One more trade between objects of the book. */
  lemma {:induction false} FilledByNext(m0: Memory, m: Memory, objs': seq<Order>, ts: seq<Trade>, t: Trade)
    requires FilledBy(m0, m.objs, ts) && FilledBy(m, objs', [t])
    requires SameObjects(m0, m, m.index.Keys)
    requires t.bid.id in m.index && t.ask.id in m.index
    ensures FilledBy(m0, objs', ts + [t])
  {
    forall p | 0 <= p < |objs'|
      ensures objs'[p] == m0.objs[p].(remaining := objs'[p].remaining)
      ensures m0.objs[p].remaining == objs'[p].remaining + if Live(m0, p) then Traded(ts + [t], m0.objs[p].id) else 0
    {
      TradedAppend(ts, t, m0.objs[p].id);
      TradedOne(t, m0.objs[p].id);
      assert m.objs[p].id == m0.objs[p].id;
    }
  }

  /** Filling two different objects of the book by the same quantity. */
  lemma {:induction false} FilledByPair(m: Memory, t: Trade, objs': seq<Order>)
    requires IndexOk(m.pool, m.objs, m.index)
    requires t.bid.id in m.index && t.ask.id in m.index && t.bid.id != t.ask.id && t.bid.qty == t.ask.qty
    requires var pb, pa := ObjectOf(m, t.bid.id), ObjectOf(m, t.ask.id);
             && pb < |m.objs| && pa < |m.objs|
             && m.objs[pb].id == t.bid.id && m.objs[pa].id == t.ask.id
             && t.bid.qty <= m.objs[pb].remaining && t.ask.qty <= m.objs[pa].remaining
             && objs' == FilledObjects(FilledObjects(m.objs, pb, t.bid.qty), pa, t.ask.qty)
    ensures FilledBy(m, objs', [t])
  {
    forall p | 0 <= p < |objs'|
      ensures objs'[p] == m.objs[p].(remaining := objs'[p].remaining)
      ensures m.objs[p].remaining == objs'[p].remaining + if Live(m, p) then Traded([t], m.objs[p].id) else 0
    {
      TradedOne(t, m.objs[p].id);
    }
  }

  lemma {:induction false} FilledByNothing(m: Memory)
    ensures FilledBy(m, m.objs, [])
  {
  }

  lemma {:induction false} SameObjectsChain(m0: Memory, m1: Memory, m2: Memory)
    requires SameObjects(m0, m1, m1.index.Keys) && SameObjects(m1, m2, m2.index.Keys)
    ensures SameObjects(m0, m2, m2.index.Keys)
  {
  }

  lemma {:induction false} SameObjectsAs(m0: Memory, m1: Memory, m2: Memory)
    requires m0.pool == m1.pool && m0.index == m1.index && SameObjects(m1, m2, m2.index.Keys)
    ensures SameObjects(m0, m2, m2.index.Keys)
  {
    forall id | id in m2.index.Keys
      ensures ObjectOf(m2, id) == ObjectOf(m0, id)
    {
      assert ObjectOf(m1, id) == ObjectOf(m0, id);
    }
  }

  /** The two front nodes of a crossed book carry different objects. */
  lemma {:induction false} FrontObjects(m: Memory, t: Threads, b: nat, a: nat)
    requires Ok(m, t, {}) && NodeAt(t, Buy, 0, 0, b) && NodeAt(t, Sell, 0, 0, a)
    ensures HasOrder(m.pool, m.objs, b) && HasOrder(m.pool, m.objs, a)
    ensures m.pool[b].order != m.pool[a].order
    ensures var bid, ask := OrderAt(m.pool, m.objs, b), OrderAt(m.pool, m.objs, a);
            && bid.id != ask.id
            && bid.id in m.index && ask.id in m.index
            && ObjectOf(m, bid.id) == m.pool[b].order.at && ObjectOf(m, ask.id) == m.pool[a].order.at
  {
    NodeDefined(m, t, Buy, 0, 0, b);
    NodeDefined(m, t, Sell, 0, 0, a);
  }

  // ----- Reading the book through the levels

  lemma {:induction false} PositionByPrice(m: Memory, t: Threads, s: Side, l: nat, l': nat)
    requires Ok(m, t, {}) && l < |m.Of(s)| && l' < |m.Of(s)| && m.Of(s)[l].price == m.Of(s)[l'].price
    ensures l == l'
  {
    OkSide(m, t, {}, s);
  }

  lemma {:induction false} CancelMissing(m: Memory, t: Threads, id: nat)
    requires Ok(m, t, {}) && id !in m.index
    ensures Cancel(Abstract(m, t), id) == Abstract(m, t)
  {
    IndexedIffPresent(m, t, {}, id);
    var b := Abstract(m, t);
    OrdersHaveId(b, id);
    NoEmptyLevel(m, t, Buy);
    NoEmptyLevel(m, t, Sell);
    DropIdNone(b.bids, id);
    DropIdNone(b.asks, id);
  }

  /** The represented book has the prices and totals that the levels cache. */
  lemma {:induction false} SidePrices(m: Memory, t: Threads)
    requires Ok(m, t, {})
    ensures var b := Abstract(m, t);
            && |b.bids| == |m.bids| && |b.asks| == |m.asks|
            && (forall l :: 0 <= l < |m.bids| ==>
                  b.bids[l].price == m.bids[l].price && Total(b.bids[l].orders) == m.bids[l].total)
            && (forall l :: 0 <= l < |m.asks| ==>
                  b.asks[l].price == m.asks[l].price && Total(b.asks[l].orders) == m.asks[l].total)
  {
  }

  lemma {:induction false} CancelAt(m: Memory, t: Threads, s: Side, id: nat, l: nat, l0: nat, k: nat)
    requires Ok(m, t, {}) && IdAt(AbstractSide(m, t, s), id, l0, k)
    requires l < |m.Of(s)| && m.Of(s)[l].price == m.Of(s)[l0].price
    ensures l == l0
    ensures Cancel(Abstract(m, t), id) == Abstract(m, t).With(s, RemoveAt(Abstract(m, t).Of(s), l, k))
  {
    PositionByPrice(m, t, s, l, l0);
    RemoveIsCancel(m, t, s, id, l, k);
  }

  lemma {:induction false} MatchProgress(whole: Matched, v: Book, v': Book, trades: seq<Trade>)
    requires Crossed(v) && v.bids[0].orders != [] && v.asks[0].orders != [] && v' == MatchOnce(v)
    requires whole == Matched(trades + Match(v).trades, Match(v).book)
    ensures whole == Matched((trades + [FrontTrade(v)]) + Match(v').trades, Match(v').book)
  {
    MatchUnroll(v);
    assert trades + ([FrontTrade(v)] + Match(v').trades) == (trades + [FrontTrade(v)]) + Match(v').trades;
  }

  lemma {:induction false} MatchDone(m: Memory, t: Threads)
    requires Ok(m, t, {})
    requires m.bids == [] || m.asks == [] || m.bids[0].price < m.asks[0].price
    ensures Match(Abstract(m, t)) == Matched([], Abstract(m, t))
  {
    SidePrices(m, t);
    MatchUnroll(Abstract(m, t));
  }

  lemma {:induction false} AvailableNext(levels: seq<Level>, s: Side, price: int, l: nat)
    requires l < |levels|
    ensures Available(levels[..l + 1], s, price)
            == Available(levels[..l], s, price)
               + if Crosses(s, price, levels[l].price) then Total(levels[l].orders) else 0
  {
    if l == 0 {
      assert levels[..1][1..] == [];
    } else {
      assert levels[..l + 1][1..] == levels[1..][..l] && levels[..l][1..] == levels[1..][..l - 1];
      AvailableNext(levels[1..], s, price, l - 1);
    }
  }

  /** Like `FilledBy`, with the added object counted among those in the book. */
  ghost predicate FilledByAdding(m: Memory, objs': seq<Order>, p: nat, ts: seq<Trade>)
    requires p < |m.objs|
  {
    && |objs'| == |m.objs|
    && TradesWithin(ts, m.index.Keys + {m.objs[p].id})
    && forall q :: 0 <= q < |objs'| ==>
         && objs'[q] == m.objs[q].(remaining := objs'[q].remaining)
         && m.objs[q].remaining == objs'[q].remaining +
              if Live(m, q) || (q == p && m.objs[p].id !in m.index) then Traded(ts, m.objs[q].id) else 0
  }

  /** Every id in the second memory was in the first under the same object, or is the added one. */
  ghost predicate AddedOnly(m: Memory, m': Memory, id: nat, p: nat) {
    forall x :: x in m'.index ==>
      if x == id && id !in m.index then ObjectOf(m', x) == p
      else x in m.index && ObjectOf(m', x) == ObjectOf(m, x)
  }

  lemma {:induction false} AddedOnlyAs(m0: Memory, m1: Memory, m2: Memory, id: nat, p: nat)
    requires m0.pool == m1.pool && m0.index == m1.index && AddedOnly(m1, m2, id, p)
    ensures AddedOnly(m0, m2, id, p)
  {
    forall x
      ensures ObjectOf(m1, x) == ObjectOf(m0, x)
    {
    }
  }

  lemma {:induction false} AddedObjects(m0: Memory, m1: Memory, m2: Memory, p: nat, trades: seq<Trade>)
    requires p < |m0.objs| && m0.objs[p].id !in m0.index
    requires m1.objs == m0.objs && m1.index.Keys == m0.index.Keys + {m0.objs[p].id}
    requires ObjectOf(m1, m0.objs[p].id) == p && SameObjects(m0, m1, m0.index.Keys)
    requires FilledBy(m1, m2.objs, trades) && SameObjects(m1, m2, m2.index.Keys)
    ensures FilledByAdding(m0, m2.objs, p, trades)
    ensures AddedOnly(m0, m2, m0.objs[p].id, p)
  {
    forall q | 0 <= q < |m1.objs|
      ensures Live(m1, q) <==> Live(m0, q) || q == p
    {
      assert m1.objs[q].id in m0.index ==> ObjectOf(m1, m1.objs[q].id) == ObjectOf(m0, m1.objs[q].id);
    }
  }

  lemma {:induction false} DepthNext(levels: seq<Level>, l: nat)
    requires l < |levels|
    ensures var total := Total(levels[l].orders);
            Depth(levels[..l + 1]) == Depth(levels[..l]) + if total > 0 then [(levels[l].price, total)] else []
  {
    if l == 0 {
      assert levels[..1][1..] == [];
    } else {
      assert levels[..l + 1][1..] == levels[1..][..l] && levels[..l][1..] == levels[1..][..l - 1];
      DepthNext(levels[1..], l - 1);
    }
  }

  lemma {:induction false} SameObjectsFrom(m0: Memory, m1: Memory, m2: Memory)
    requires m0.pool == m1.pool && m0.index == m1.index && SameObjects(m1, m2, m1.index.Keys)
    ensures SameObjects(m0, m2, m0.index.Keys)
  {
    forall id | id in m0.index.Keys
      ensures ObjectOf(m2, id) == ObjectOf(m0, id)
    {
      assert ObjectOf(m1, id) == ObjectOf(m0, id);
    }
  }

  lemma {:induction false} ModifiedObjects(m0: Memory, m1: Memory, m2: Memory, id: nat)
    requires id in m0.index && m1.index == m0.index - {id} && SameObjects(m0, m1, m1.index.Keys)
    requires SameObjects(m1, m2, m1.index.Keys) && m2.index.Keys == m1.index.Keys + {id}
    ensures SameObjects(m0, m2, m2.index.Keys - {id})
    ensures m2.index.Keys == m0.index.Keys
  {
    assert m2.index.Keys - {id} == m1.index.Keys;
  }

  lemma {:induction false} DropPriceNone(levels: seq<Level>, price: int)
    requires forall i :: 0 <= i < |levels| ==> levels[i].price != price
    ensures DropPrice(levels, price) == levels
  {
    if levels != [] {
      DropPriceNone(levels[1..], price);
    }
  }

  lemma {:induction false} DropPriceSet(levels: seq<Level>, l: nat, level: Level)
    requires l < |levels| && level.price == levels[l].price
    ensures DropPrice(levels[l := level], level.price) == DropPrice(levels, level.price)
  {
    if l == 0 {
      assert levels[0 := level][1..] == levels[1..];
    } else {
      assert levels[l := level][1..] == levels[1..][l - 1 := level];
      DropPriceSet(levels[1..], l - 1, level);
    }
  }

  lemma {:induction false} DropPriceErase(levels: seq<Level>, l: nat)
    requires l < |levels|
    ensures DropPrice(levels[..l] + levels[l + 1..], levels[l].price) == DropPrice(levels, levels[l].price)
  {
    if l == 0 {
      assert levels[..0] + levels[1..] == levels[1..];
    } else {
      var r := levels[..l] + levels[l + 1..];
      assert r[1..] == levels[1..][..l - 1] + levels[1..][l..];
      DropPriceErase(levels[1..], l - 1);
    }
  }

  lemma {:induction false} CountRemove(levels: seq<Level>, l: nat, k: nat)
    requires l < |levels| && k < |levels[l].orders|
    ensures Count(RemoveAt(levels, l, k)) == Count(levels) - 1
  {
    var r := RemoveAt(levels, l, k);
    if l == 0 {
      if |levels[0].orders| == 1 {
        assert r == levels[1..];
      } else {
        assert r[1..] == levels[1..];
      }
    } else {
      assert levels == [levels[0]] + levels[1..];
      RemoveBehind(levels[0], levels[1..], l - 1, k);
      CountRemove(levels[1..], l - 1, k);
      assert ([levels[0]] + RemoveAt(levels[1..], l - 1, k))[1..] == RemoveAt(levels[1..], l - 1, k);
    }
  }

  /** No level but the one at index `l` can have this price. */
  ghost predicate OnlyAt(levels: seq<Level>, l: nat, price: int) {
    l <= |levels| && forall i :: 0 <= i < |levels| && i != l ==> levels[i].price != price
  }

  lemma {:induction false} OnlyLevel(m: Memory, t: Threads, s: Side, l: nat, price: int)
    requires Ok(m, t, {}) && l <= |m.Of(s)| && (l < |m.Of(s)| ==> m.Of(s)[l].price == price)
    requires forall i :: 0 <= i < l ==> m.Of(s)[i].price != price
    ensures OnlyAt(AbstractSide(m, t, s), l, price)
  {
    OkSide(m, t, {}, s);
  }

  /** Removing any order of the level at `price` changes nothing for dropping that level. */
  lemma {:induction false} DropPriceStep(m: Memory, t: Threads, s: Side, l: nat, price: int)
    requires Ok(m, t, {}) && l < |m.Of(s)| && m.Of(s)[l].price == price && OnlyAt(AbstractSide(m, t, s), l, price)
    ensures var levels := AbstractSide(m, t, s);
            && l < |levels| && levels[l].orders != [] && levels[l].price == price
            && DropPrice(RemoveAt(levels, l, 0), price) == DropPrice(levels, price)
            && OnlyAt(RemoveAt(levels, l, 0), l, price)
            && Count(RemoveAt(levels, l, 0)) < Count(levels)
  {
    NoEmptyLevel(m, t, s);
    OkSide(m, t, {}, s);
    var levels := AbstractSide(m, t, s);
    CountRemove(levels, l, 0);
    if |levels[l].orders| == 1 {
      DropPriceErase(levels, l);
    } else {
      DropPriceSet(levels, l, Level(price, levels[l].orders[..0] + levels[l].orders[1..]));
    }
  }

  lemma {:induction false} DropPriceDone(m: Memory, t: Threads, s: Side, l: nat, price: int)
    requires Ok(m, t, {}) && OnlyAt(AbstractSide(m, t, s), l, price)
    requires l < |m.Of(s)| ==> m.Of(s)[l].price != price
    ensures DropPrice(AbstractSide(m, t, s), price) == AbstractSide(m, t, s)
  {
    OkSide(m, t, {}, s);
    DropPriceNone(AbstractSide(m, t, s), price);
  }

  lemma {:induction false} InsertedAfter(m0: Memory, m1: Memory, m2: Memory, id: nat)
    requires SameObjects(m0, m1, m1.index.Keys) && id !in m1.index
    requires SameObjects(m1, m2, m1.index.Keys) && m2.index.Keys == m1.index.Keys + {id}
    ensures SameObjects(m0, m2, m2.index.Keys - {id})
  {
    assert m2.index.Keys - {id} == m1.index.Keys;
  }

  lemma {:induction false} EmptyOk(m: Memory, t: Threads)
    requires FreeOk(m.pool, m.free, t.free, {}) && (forall n :: 0 <= n < |m.pool| ==> m.pool[n].order.Null?)
    requires m.bids == [] && m.asks == [] && t.bids == [] && t.asks == [] && m.index == map[]
    ensures Ok(m, t, {}) && Abstract(m, t) == Book([], [])
  {
  }

  /** Returning one indexed node to the free list. */
  lemma {:induction false} FreedStep(pool: seq<Node>, free: Ptr, q: seq<nat>, objs: seq<Order>, index: map<nat, nat>,
                                     id: nat)
    requires FreeOk(pool, free, q, {}) && IndexOk(pool, objs, index) && id in index
    ensures index[id] < |pool|
    ensures var pool' := pool[index[id] := Node(Null, free, Null)];
            FreeOk(pool', Ref(index[id]), [index[id]] + q, {}) && IndexOk(pool', objs, index - {id})
  {
    var n := index[id];
    assert HasOrder(pool, objs, n);
    var pool' := pool[n := Node(Null, free, Null)];
    RemovedFree(pool, pool', free, q, n);
    RemovedIndex(pool, objs, pool', index, n);
  }

  ghost predicate IdsWithin(ids: set<nat>, low: nat, high: nat) {
    forall id :: id in ids ==> low <= id < high
  }

  /** Resting `rows` on a side from id `id` on completes it to `whole` and uses up the ids below `ids`. */
  ghost predicate RowsLeft(levels: seq<Level>, keys: set<nat>, s: Side, rows: seq<(int, nat)>, low: nat, id: nat,
                           whole: seq<Level>, ids: nat) {
    && whole == SnapshotSide(levels, s, rows, id) && ids == id + RowCount(rows)
    && low <= id && IdsWithin(keys, low, id)
  }

  lemma {:induction false} RowSkipped(levels: seq<Level>, keys: set<nat>, s: Side, rows: seq<(int, nat)>, i: nat,
                                      low: nat, id: nat, whole: seq<Level>, ids: nat)
    requires i < |rows| && rows[i].1 == 0 && RowsLeft(levels, keys, s, rows[i..], low, id, whole, ids)
    ensures RowsLeft(levels, keys, s, rows[i + 1..], low, id, whole, ids)
  {
    SnapshotNext(levels, s, rows, id, i);
  }

  lemma {:induction false} RowRested(levels: seq<Level>, keys: set<nat>, s: Side, rows: seq<(int, nat)>, i: nat,
                                     low: nat, id: nat, whole: seq<Level>, ids: nat)
    requires i < |rows| && rows[i].1 != 0 && RowsLeft(levels, keys, s, rows[i..], low, id, whole, ids)
    ensures RowsLeft(Rest(levels, Order(GoodTillCancel, id, s, rows[i].0, rows[i].1, rows[i].1)), keys + {id}, s,
                     rows[i + 1..], low, id + 1, whole, ids)
  {
    SnapshotNext(levels, s, rows, id, i);
  }

  /** The second store has the objects of the first, unchanged, and possibly more. */
  ghost predicate Extends(objs: seq<Order>, objs': seq<Order>) {
    |objs| <= |objs'| && objs'[..|objs|] == objs
  }

  lemma {:induction false} ExtendsChain(a: seq<Order>, b: seq<Order>, c: seq<Order>)
    requires Extends(a, b) && Extends(b, c)
    ensures Extends(a, c)
  {
    assert c[..|a|] == c[..|b|][..|a|];
  }
}
