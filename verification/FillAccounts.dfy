/** Accounting for the fills of the local book adapter: what was submitted under an id, what is
    left of its order object, which trades are not yet reported, and what was queued as filled.
 */
module FillAccounts {
  import opened PriceTimeBook
  import opened BookTheorems
  import opened NodeLists
  import opened BookMemory
  import opened BookIndex

  /** A queued fill; its quantity is in book units. */
  datatype Fill = Fill(id: nat, units: real, price: int)

  /** Filled quantity of an id in book units. */
  function Filled(fs: seq<Fill>, id: nat): real {
    if fs == [] then 0.0
    else
      var last := fs[|fs| - 1];
      Filled(fs[..|fs| - 1], id) + if last.id == id then last.units else 0.0
  }

  lemma {:induction false} FilledAppend(fs: seq<Fill>, f: Fill, id: nat)
    ensures Filled(fs + [f], id) == Filled(fs, id) + if f.id == id then f.units else 0.0
  {
    assert (fs + [f])[..|fs|] == fs;
  }

  /** Quantity of the legs that carry an id. */
  function LegSum(legs: seq<TradeInfo>, id: nat): nat {
    if legs == [] then 0 else (if legs[0].id == id then legs[0].qty else 0) + LegSum(legs[1..], id)
  }

  function Legs(ts: seq<Trade>): seq<TradeInfo> {
    if ts == [] then [] else [ts[0].bid, ts[0].ask] + Legs(ts[1..])
  }

  lemma {:induction false} LegSumConcat(a: seq<TradeInfo>, b: seq<TradeInfo>, id: nat)
    ensures LegSum(a + b, id) == LegSum(a, id) + LegSum(b, id)
  {
    if a == [] {
      assert a + b == b;
    } else {
      assert (a + b)[1..] == a[1..] + b;
      LegSumConcat(a[1..], b, id);
    }
  }

  lemma {:induction false} LegSumTwo(a: TradeInfo, b: TradeInfo, rest: seq<TradeInfo>, id: nat)
    ensures LegSum([a, b] + rest, id) == (if a.id == id then a.qty else 0) + (if b.id == id then b.qty else 0)
            + LegSum(rest, id)
  {
    assert ([a, b] + rest)[1..] == [b] + rest;
    assert ([b] + rest)[1..] == rest;
  }

  lemma {:induction false} LegSumIsTraded(ts: seq<Trade>, id: nat)
    ensures LegSum(Legs(ts), id) == Traded(ts, id)
  {
    if ts != [] {
      LegSumTwo(ts[0].bid, ts[0].ask, Legs(ts[1..]), id);
      LegSumIsTraded(ts[1..], id);
    }
  }

  lemma {:induction false} LegsConcat(a: seq<Trade>, b: seq<Trade>)
    ensures Legs(a + b) == Legs(a) + Legs(b)
  {
    if a == [] {
      assert a + b == b;
    } else {
      assert (a + b)[1..] == a[1..] + b;
      LegsConcat(a[1..], b);
    }
  }

  lemma {:induction false} LegsMember(ts: seq<Trade>, ids: set<nat>)
    requires TradesWithin(ts, ids)
    ensures forall k :: 0 <= k < |Legs(ts)| ==> Legs(ts)[k].id in ids
  {
    if ts != [] {
      forall k | 0 <= k < |ts[1..]|
        ensures ts[1..][k].bid.id in ids && ts[1..][k].ask.id in ids
      {
        assert ts[1..][k] == ts[k + 1];
      }
      LegsMember(ts[1..], ids);
    }
  }

  lemma {:induction false} LegSumNone(legs: seq<TradeInfo>, id: nat)
    requires forall k :: 0 <= k < |legs| ==> legs[k].id != id
    ensures LegSum(legs, id) == 0
  {
    if legs != [] {
      LegSumNone(legs[1..], id);
    }
  }

  // ----- The account

  /** `watch` maps the ids whose order object is tracked to that object; `pending` holds the trade
      legs not yet reported. */
  datatype Acct = Acct(watch: map<nat, nat>, submitted: map<nat, nat>, queued: seq<Fill>,
                       pending: seq<TradeInfo>, nextId: nat)

  /** A tracked id: its object is the one in the book if the book has the id, and what was queued,
      what is left of the object and what is not yet reported fit into what was submitted. */
  ghost predicate Watched(m: Memory, a: Acct, id: nat) {
    && id in a.watch && id in a.submitted
    && a.watch[id] < |m.objs| && m.objs[a.watch[id]].id == id
    && (id in m.index ==> ObjectOf(m, id) == a.watch[id])
    && Filled(a.queued, id) + (m.objs[a.watch[id]].remaining + LegSum(a.pending, id)) as real
       <= a.submitted[id] as real
  }

  ghost predicate IdsUsed(m: Memory, a: Acct) {
    && IdsWithin(m.index.Keys, 0, a.nextId)
    && IdsWithin(a.submitted.Keys, 0, a.nextId)
    && forall k :: 0 <= k < |a.pending| ==> a.pending[k].id < a.nextId
  }

  ghost predicate Bounded(a: Acct) {
    forall id :: if id in a.submitted then Filled(a.queued, id) <= a.submitted[id] as real
                 else Filled(a.queued, id) == 0.0
  }

  ghost predicate Safe(m: Memory, a: Acct) {
    && IdsUsed(m, a)
    && Bounded(a)
    && forall id :: id in a.watch ==> Watched(m, a, id)
  }

  lemma {:induction false} EmptySafe(m: Memory, a: Acct)
    requires m.index == map[] && a.watch == map[] && a.submitted == map[] && a.queued == [] && a.pending == []
    ensures Safe(m, a)
  {
    assert m.index.Keys == {} && a.submitted.Keys == {};
  }

  // ----- Book operations

  /** What an addition to the book does to one tracked id. */
  lemma {:induction false} AddKeepsWatched(m: Memory, m': Memory, a: Acct, a': Acct, o: Order, ts: seq<Trade>, id: nat)
    requires Safe(m, a) && id in a.watch && o.id == a.nextId
    requires FilledByAdding(m.(objs := m.objs + [o]), m'.objs, |m.objs|, ts)
    requires AddedOnly(m, m', o.id, |m.objs|)
    requires a' == a.(watch := a'.watch, submitted := a'.submitted, pending := a.pending + Legs(ts),
                      nextId := a'.nextId)
    requires id in a'.watch && a'.watch[id] == a.watch[id] && id in a'.submitted && a'.submitted[id] == a.submitted[id]
    ensures Watched(m', a', id)
  {
    assert Watched(m, a, id);
    var p := a.watch[id];
    var m1 := m.(objs := m.objs + [o]);
    assert m1.objs[p] == m.objs[p];
    assert id < a.nextId;
    LegSumConcat(a.pending, Legs(ts), id);
    LegSumIsTraded(ts, id);
    if id !in m.index {
      LegsMember(ts, m.index.Keys + {o.id});
      LegSumNone(Legs(ts), id);
    } else {
      assert ObjectOf(m1, id) == ObjectOf(m, id);
    }
  }

  lemma {:induction false} PendingUsed(m: Memory, a: Acct, o: Order, ts: seq<Trade>)
    requires IdsUsed(m, a) && TradesWithin(ts, m.index.Keys + {o.id}) && o.id == a.nextId
    ensures forall k :: 0 <= k < |a.pending + Legs(ts)| ==> (a.pending + Legs(ts))[k].id < a.nextId + 1
  {
    LegsMember(ts, m.index.Keys + {o.id});
  }

  /** An order of someone else, with a fresh id: its trades become unreported trades. */
  lemma {:induction false} ForeignAddSafe(m: Memory, m': Memory, a: Acct, o: Order, ts: seq<Trade>)
    requires Safe(m, a) && o.id == a.nextId
    requires FilledByAdding(m.(objs := m.objs + [o]), m'.objs, |m.objs|, ts)
    requires AddedOnly(m, m', o.id, |m.objs|)
    ensures Safe(m', a.(pending := a.pending + Legs(ts), nextId := a.nextId + 1))
  {
    var a' := a.(pending := a.pending + Legs(ts), nextId := a.nextId + 1);
    PendingUsed(m, a, o, ts);
    forall id | id in a'.watch
      ensures Watched(m', a', id)
    {
      AddKeepsWatched(m, m', a, a', o, ts, id);
    }
  }

  /** An own order, with a fresh id and watched from the start. */
  lemma {:induction false} OwnAddSafe(m: Memory, m': Memory, a: Acct, o: Order, ts: seq<Trade>)
    requires Safe(m, a) && o.id == a.nextId
    requires FilledByAdding(m.(objs := m.objs + [o]), m'.objs, |m.objs|, ts)
    requires AddedOnly(m, m', o.id, |m.objs|)
    ensures Safe(m', a.(watch := a.watch[o.id := |m.objs|], submitted := a.submitted[o.id := o.remaining],
                        pending := a.pending + Legs(ts), nextId := a.nextId + 1))
  {
    var a' := a.(watch := a.watch[o.id := |m.objs|], submitted := a.submitted[o.id := o.remaining],
                 pending := a.pending + Legs(ts), nextId := a.nextId + 1);
    PendingUsed(m, a, o, ts);
    forall id | id in a'.watch
      ensures Watched(m', a', id)
    {
      if id == o.id {
        OwnWatched(m, m', a, a', o, ts);
      } else {
        AddKeepsWatched(m, m', a, a', o, ts, id);
      }
    }
    assert Filled(a.queued, o.id) == 0.0;
  }

  lemma {:induction false} OwnWatched(m: Memory, m': Memory, a: Acct, a': Acct, o: Order, ts: seq<Trade>)
    requires Safe(m, a) && o.id == a.nextId
    requires FilledByAdding(m.(objs := m.objs + [o]), m'.objs, |m.objs|, ts)
    requires AddedOnly(m, m', o.id, |m.objs|)
    requires a' == a.(watch := a.watch[o.id := |m.objs|], submitted := a.submitted[o.id := o.remaining],
                      pending := a.pending + Legs(ts), nextId := a.nextId + 1)
    ensures Watched(m', a', o.id)
  {
    var m1 := m.(objs := m.objs + [o]);
    assert m1.objs[|m.objs|] == o && o.id !in m.index;
    assert Filled(a.queued, o.id) == 0.0;
    LegSumConcat(a.pending, Legs(ts), o.id);
    LegSumIsTraded(ts, o.id);
    LegSumNone(a.pending, o.id);
  }

  /** Operations that trade nothing: objects stay, more may appear, and every id of the book keeps
      its object unless it was not watched. */
  lemma {:induction false} QuietSafe(m: Memory, m': Memory, a: Acct, nextId: nat)
    requires Safe(m, a) && a.nextId <= nextId && Extends(m.objs, m'.objs) && IdsWithin(m'.index.Keys, 0, nextId)
    requires forall id :: id in a.watch && id in m'.index ==> id in m.index && ObjectOf(m', id) == ObjectOf(m, id)
    ensures Safe(m', a.(nextId := nextId))
  {
    var a' := a.(nextId := nextId);
    forall id | id in a.watch
      ensures Watched(m', a', id)
    {
      assert Watched(m, a, id);
      assert m'.objs[a.watch[id]] == m'.objs[..|m.objs|][a.watch[id]];
    }
  }

  // ----- Adapter bookkeeping

  /** Forgetting a tracked id. */
  lemma {:induction false} ForgetSafe(m: Memory, a: Acct, watch: map<nat, nat>)
    requires Safe(m, a) && forall id :: id in watch ==> id in a.watch && watch[id] == a.watch[id]
    ensures Safe(m, a.(watch := watch))
  {
    forall id | id in watch
      ensures Watched(m, a.(watch := watch), id)
    {
      assert Watched(m, a, id);
    }
  }

  /** A quiet operation on the book together with forgetting some tracked ids. */
  lemma {:induction false} DropSafe(m: Memory, m': Memory, a: Acct, a': Acct)
    requires Safe(m, a) && a' == a.(watch := a'.watch, nextId := a'.nextId) && a.nextId <= a'.nextId
    requires Extends(m.objs, m'.objs) && IdsWithin(m'.index.Keys, 0, a'.nextId)
    requires forall id :: id in a'.watch ==> id in a.watch && a'.watch[id] == a.watch[id]
    requires forall id :: id in a'.watch && id in m'.index ==> id in m.index && ObjectOf(m', id) == ObjectOf(m, id)
    ensures Safe(m', a')
  {
    ForgetSafe(m, a, a'.watch);
    QuietSafe(m, m', a.(watch := a'.watch), a'.nextId);
  }

  /** Another party's order with an unused id. */
  lemma {:induction false} ForeignSafe(m: Memory, m': Memory, a: Acct, a': Acct, waiting: seq<Trade>, o: Order,
                                       ts: seq<Trade>)
    requires Safe(m, a) && o.id >= a.nextId && a.pending == Legs(waiting)
    requires FilledByAdding(m.(objs := m.objs + [o]), m'.objs, |m.objs|, ts)
    requires AddedOnly(m, m', o.id, |m.objs|)
    requires a' == a.(pending := Legs(waiting + ts), nextId := o.id + 1)
    ensures Safe(m', a')
  {
    QuietSafe(m, m, a, o.id);
    ForeignAddSafe(m, m', a.(nextId := o.id), o, ts);
    LegsConcat(waiting, ts);
  }

  /** A depth update: at most one new id, unused before. */
  lemma {:induction false} UpdateSafe(m: Memory, m': Memory, a: Acct, a': Acct, id: nat)
    requires Safe(m, a) && id >= a.nextId && a' == a.(nextId := id + 1)
    requires Extends(m.objs, m'.objs) && SameObjects(m, m', m'.index.Keys - {id})
    ensures Safe(m', a')
  {
    forall x | x in m'.index.Keys
      ensures 0 <= x < id + 1
    {
      assert x != id ==> x in m'.index.Keys - {id};
    }
    forall x | x in a.watch && x in m'.index
      ensures x in m.index && ObjectOf(m', x) == ObjectOf(m, x)
    {
      assert Watched(m, a, x);
      assert x in m'.index.Keys - {id};
    }
    DropSafe(m, m', a, a');
  }

  /** A depth snapshot: only unused ids are in the book afterwards. */
  lemma {:induction false} SnapshotSafe(m: Memory, m': Memory, a: Acct, a': Acct, id: nat)
    requires Safe(m, a) && a.nextId <= id <= a'.nextId && a' == a.(nextId := a'.nextId)
    requires Extends(m.objs, m'.objs) && IdsWithin(m'.index.Keys, id, a'.nextId)
    ensures Safe(m', a')
  {
    forall x | x in a.watch && x in m'.index
      ensures x in m.index && ObjectOf(m', x) == ObjectOf(m, x)
    {
      assert Watched(m, a, x);
      assert x in m'.index.Keys;
    }
    DropSafe(m, m', a, a');
  }

  lemma {:induction false} Fits(filled: real, left: nat, legs: nat, units: real, cap: nat)
    requires filled + (left + legs) as real <= cap as real
    requires units <= left as real || units <= legs as real
    ensures filled + units <= cap as real
  {
    assert (left + legs) as real == left as real + legs as real;
  }

  /** Queueing a fill that still fits. */
  lemma {:induction false} QueueBounded(a: Acct, f: Fill, a': Acct)
    requires Bounded(a) && f.id in a.submitted
    requires Filled(a.queued, f.id) + f.units <= a.submitted[f.id] as real
    requires a'.submitted == a.submitted && a'.queued == a.queued + [f]
    ensures Bounded(a')
  {
    forall id
      ensures if id in a'.submitted then Filled(a'.queued, id) <= a'.submitted[id] as real
              else Filled(a'.queued, id) == 0.0
    {
      FilledAppend(a.queued, f, id);
    }
  }

  lemma {:induction false} ReportWatched(m: Memory, a: Acct, leg: TradeInfo, rest: seq<TradeInfo>, f: Fill, id: nat)
    requires Watched(m, a, id) && a.pending == [leg] + rest
    requires f.id == leg.id && f.units <= leg.qty as real
    ensures Watched(m, a.(pending := rest, queued := a.queued + [f]), id)
  {
    assert ([leg] + rest)[1..] == rest;
    FilledAppend(a.queued, f, id);
    var left := m.objs[a.watch[id]].remaining;
    assert (left + LegSum(a.pending, id)) as real
        == (left + LegSum(rest, id)) as real + if leg.id == id then leg.qty as real else 0.0;
  }

  /** Reporting the first pending leg: at most its quantity is queued for the tracked id it carries. */
  lemma {:induction false} ReportSafe(m: Memory, a: Acct, a': Acct, leg: TradeInfo, f: Fill)
    requires Safe(m, a) && a.pending == [leg] + a'.pending && a' == a.(pending := a'.pending, queued := a.queued + [f])
    requires f.id == leg.id && leg.id in a.watch && f.units <= leg.qty as real
    ensures Safe(m, a')
  {
    var rest := a'.pending;
    assert forall k :: 0 <= k < |rest| ==> rest[k] == a.pending[k + 1];
    forall id | id in a.watch
      ensures Watched(m, a', id)
    {
      assert Watched(m, a, id);
      ReportWatched(m, a, leg, rest, f, id);
    }
    assert Watched(m, a, leg.id);
    assert leg.qty <= LegSum(a.pending, leg.id) by {
      assert ([leg] + rest)[1..] == rest;
    }
    Fits(Filled(a.queued, leg.id), m.objs[a.watch[leg.id]].remaining, LegSum(a.pending, leg.id), f.units,
         a.submitted[leg.id]);
    QueueBounded(a, f, a');
  }

  lemma {:induction false} SkipSafe(m: Memory, a: Acct, leg: TradeInfo, rest: seq<TradeInfo>)
    requires Safe(m, a) && a.pending == [leg] + rest
    ensures Safe(m, a.(pending := rest))
  {
    var a' := a.(pending := rest);
    assert ([leg] + rest)[1..] == rest;
    assert forall k :: 0 <= k < |rest| ==> rest[k] == a.pending[k + 1];
    forall id | id in a.watch
      ensures Watched(m, a', id)
    {
      assert Watched(m, a, id);
    }
  }

  /** The order of pending legs does not matter. */
  lemma {:induction false} SwapSafe(m: Memory, a: Acct, x: TradeInfo, y: TradeInfo, rest: seq<TradeInfo>)
    requires Safe(m, a) && a.pending == [x, y] + rest
    ensures Safe(m, a.(pending := [y, x] + rest))
  {
    var a' := a.(pending := [y, x] + rest);
    assert a.pending[0] == x && a.pending[1] == y;
    assert forall k :: 2 <= k < |a'.pending| ==> a'.pending[k] == a.pending[k];
    forall id | id in a.watch
      ensures Watched(m, a', id)
    {
      assert Watched(m, a, id);
      LegSumTwo(x, y, rest, id);
      LegSumTwo(y, x, rest, id);
    }
  }

  lemma {:induction false} SwapLegsSafe(m: Memory, a: Acct, x: seq<TradeInfo>, y: seq<TradeInfo>)
    requires Safe(m, a) && a.pending == x + y
    ensures Safe(m, a.(pending := y + x))
  {
    var a' := a.(pending := y + x);
    assert forall k :: 0 <= k < |y| ==> y[k] == a.pending[|x| + k];
    assert forall k :: 0 <= k < |x| ==> x[k] == a.pending[k];
    forall id | id in a.watch
      ensures Watched(m, a', id)
    {
      assert Watched(m, a, id);
      LegSumConcat(x, y, id);
      LegSumConcat(y, x, id);
    }
  }

  /** Placing an own order with an unused id: its trades become the first unreported ones. */
  lemma {:induction false} PlaceSafe(m: Memory, m': Memory, a: Acct, a': Acct, o: Order, ts: seq<Trade>)
    requires Safe(m, a) && o.id >= a.nextId
    requires FilledByAdding(m.(objs := m.objs + [o]), m'.objs, |m.objs|, ts)
    requires AddedOnly(m, m', o.id, |m.objs|)
    requires a' == Acct(a.watch[o.id := |m.objs|], a.submitted[o.id := o.remaining], a.queued, Legs(ts) + a.pending,
                        o.id + 1)
    ensures Safe(m', a')
    ensures o.id !in a.submitted && o.id !in a.watch && |m.objs| < |m'.objs|
  {
    QuietSafe(m, m, a, o.id);
    OwnAddSafe(m, m', a.(nextId := o.id), o, ts);
    SwapLegsSafe(m', a'.(pending := a.pending + Legs(ts)), a.pending, Legs(ts));
    assert forall id :: id in a.watch ==> Watched(m, a, id);
    assert Watched(m', a', o.id);
  }

  /** A traversal fill: all that is left of a tracked order is queued and the order forgotten. */
  lemma {:induction false} SweepSafe(m: Memory, a: Acct, a': Acct, f: Fill)
    requires Safe(m, a) && f.id in a.watch && a.watch[f.id] < |m.objs|
    requires f.units <= m.objs[a.watch[f.id]].remaining as real
    requires a' == a.(watch := a.watch - {f.id}, queued := a.queued + [f])
    ensures Safe(m, a')
  {
    var id := f.id;
    forall x | x in a'.watch
      ensures Watched(m, a', x)
    {
      assert Watched(m, a, x);
      FilledAppend(a.queued, f, x);
    }
    assert Watched(m, a, id);
    Fits(Filled(a.queued, id), m.objs[a.watch[id]].remaining, LegSum(a.pending, id), f.units, a.submitted[id]);
    QueueBounded(a, f, a');
  }
}
