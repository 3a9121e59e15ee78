/** The price estimate for a market order: the volume-weighted average over the published depth,
    against the trades that the matcher produces.
 */
module WalkedVwap {
  import opened PriceTimeBook
  import opened BookTheorems

  /** Ticks per unit of price. */
  const PRICE_SCALE: real := 10000.0

  function ToDouble(price: int): real {
    price as real / PRICE_SCALE
  }

  function MinReal(a: real, b: real): real {
    if a <= b then a else b
  }

  function Paid(units: real, price: int): real {
    units * ToDouble(price)
  }

  // ----- The walk over published depth

  /** Cost of taking `x` units from the front of the depth, as far as it goes. */
  function DepthCost(depth: seq<(int, nat)>, x: real): real {
    if depth == [] || x <= 0.0 then 0.0
    else
      var take := MinReal(x, depth[0].1 as real);
      Paid(take, depth[0].0) + DepthCost(depth[1..], x - take)
  }

  function DepthTotal(depth: seq<(int, nat)>): nat {
    if depth == [] then 0 else depth[0].1 + DepthTotal(depth[1..])
  }

  /** What the estimate is: nothing when the depth does not suffice, else cost over quantity. */
  function Vwap(depth: seq<(int, nat)>, x: real): real {
    if x <= 0.0 || DepthTotal(depth) as real < x then 0.0 else DepthCost(depth, x) / x
  }

  lemma {:induction false} DepthCostEmpty(depth: seq<(int, nat)>, x: real)
    requires x <= 0.0
    ensures DepthCost(depth, x) == 0.0
  {
  }

  /** One level of the walk. */
  lemma {:induction false} WalkLevel(depth: seq<(int, nat)>, i: nat, remaining: real, take: real)
    requires i < |depth| && remaining > 0.0 && take == MinReal(remaining, depth[i].1 as real)
    ensures DepthCost(depth[i..], remaining) == Paid(take, depth[i].0) + DepthCost(depth[i + 1..], remaining - take)
    ensures DepthTotal(depth[i..]) as real >= remaining <==> DepthTotal(depth[i + 1..]) as real >= remaining - take
  {
    assert depth[i..][1..] == depth[i + 1..];
  }

  /** `walked_book_vwap`: the loop over the depth computes `Vwap`. */
  method WalkDepth(depth: seq<(int, nat)>, x: real) returns (vwap: real)
    ensures vwap == Vwap(depth, x)
  {
    var remaining, cost, consumed := x, 0.0, 0.0;
    var i := 0;
    assert depth[0..] == depth;
    while i < |depth| && remaining > 0.0
      invariant i <= |depth|
      invariant x <= 0.0 ==> remaining == x && consumed == 0.0
      invariant x > 0.0 ==> remaining >= 0.0
      invariant consumed == x - remaining
      invariant cost + DepthCost(depth[i..], remaining) == DepthCost(depth, x)
      invariant x > 0.0 ==> (DepthTotal(depth) as real >= x <==> DepthTotal(depth[i..]) as real >= remaining)
    {
      var take := MinReal(remaining, depth[i].1 as real);
      WalkLevel(depth, i, remaining, take);
      cost := cost + Paid(take, depth[i].0);
      consumed := consumed + take;
      remaining := remaining - take;
      i := i + 1;
    }
    if remaining <= 0.0 {
      DepthCostEmpty(depth[i..], remaining);
    }
    if remaining > 0.0 || consumed <= 0.0 {
      return 0.0;
    }
    return cost / consumed;
  }

  // ----- When it is an estimate at all

  ghost predicate PositivePrices(depth: seq<(int, nat)>) {
    forall i :: 0 <= i < |depth| ==> depth[i].0 > 0
  }

  ghost predicate NonNegativePrices(depth: seq<(int, nat)>) {
    forall i :: 0 <= i < |depth| ==> depth[i].0 >= 0
  }

  /** Level `i` has a price and a size and begins within the first `x` units. */
  predicate PaidLevel(depth: seq<(int, nat)>, x: real, i: nat) {
    i < |depth| && depth[i].0 > 0 && depth[i].1 > 0 && DepthTotal(depth[..i]) as real < x
  }

  ghost predicate SomePaidLevel(depth: seq<(int, nat)>, x: real) {
    exists i: nat :: PaidLevel(depth, x, i)
  }

  /** A paid level behind the first one is a paid level of what the first one leaves. */
  lemma {:induction false} PaidLevelBehind(depth: seq<(int, nat)>, x: real, i: nat)
    requires depth != []
    ensures PaidLevel(depth, x, i + 1) <==> PaidLevel(depth[1..], x - depth[0].1 as real, i)
  {
    if i < |depth[1..]| {
      assert depth[..i + 1][0] == depth[0] && depth[..i + 1][1..] == depth[1..][..i];
    }
  }

  lemma {:induction false} PaidStep(depth: seq<(int, nat)>, x: real)
    requires depth != [] && x > 0.0
    ensures SomePaidLevel(depth, x) <==>
            (depth[0].0 > 0 && depth[0].1 > 0) || SomePaidLevel(depth[1..], x - depth[0].1 as real)
  {
    assert depth[..0] == [] && (PaidLevel(depth, x, 0) <==> depth[0].0 > 0 && depth[0].1 > 0);
    if SomePaidLevel(depth, x) {
      var i: nat :| PaidLevel(depth, x, i);
      if i > 0 {
        PaidLevelBehind(depth, x, i - 1);
      }
    }
    if SomePaidLevel(depth[1..], x - depth[0].1 as real) {
      var i: nat :| PaidLevel(depth[1..], x - depth[0].1 as real, i);
      PaidLevelBehind(depth, x, i);
    }
  }

  /** With prices that are not negative, walking costs something exactly if it comes to a paid level. */
  lemma {:induction false} CostPositiveIff(depth: seq<(int, nat)>, x: real)
    requires NonNegativePrices(depth)
    ensures DepthCost(depth, x) >= 0.0
    ensures DepthCost(depth, x) > 0.0 <==> x > 0.0 && SomePaidLevel(depth, x)
  {
    if depth != [] && x > 0.0 {
      var take := MinReal(x, depth[0].1 as real);
      CostPositiveIff(depth[1..], x - take);
      PaidSign(take, depth[0].0);
      PaidStep(depth, x);
      if take == x {
        NonePaidAfter(depth[1..], x - depth[0].1 as real);
      }
    }
  }

  lemma {:induction false} NonePaidAfter(depth: seq<(int, nat)>, x: real)
    requires x <= 0.0
    ensures !SomePaidLevel(depth, x)
  {
  }

  lemma {:induction false} PaidSign(units: real, price: int)
    requires units >= 0.0 && price >= 0
    ensures Paid(units, price) >= 0.0 && (Paid(units, price) > 0.0 <==> units > 0.0 && price > 0)
  {
    if price > 0 {
      PositiveProduct(units, ToDouble(price));
    }
  }

  lemma {:induction false} PositiveIsPaid(depth: seq<(int, nat)>, x: real)
    requires PositivePrices(depth) && x > 0.0 && DepthTotal(depth) > 0
    ensures SomePaidLevel(depth, x)
  {
    PaidStep(depth, x);
    if depth[0].1 == 0 {
      PositiveIsPaid(depth[1..], x);
    }
  }

  lemma {:induction false} PositiveProduct(a: real, b: real)
    requires a >= 0.0 && b > 0.0
    ensures a * b >= 0.0 && (a > 0.0 ==> a * b > 0.0)
  {
  }

  lemma {:induction false} QuotientZero(a: real, x: real)
    requires x > 0.0
    ensures a / x == 0.0 <==> a == 0.0
  {
    assert (a / x) * x == a;
  }

  lemma {:induction false} VwapZeroIff(depth: seq<(int, nat)>, x: real)
    ensures Vwap(depth, x) == 0.0 <==> x <= 0.0 || (DepthTotal(depth) as real) < x || DepthCost(depth, x) == 0.0
  {
    if x > 0.0 && DepthTotal(depth) as real >= x {
      QuotientZero(DepthCost(depth, x), x);
    }
  }

  /** With prices that are not negative the estimate is nonzero exactly when something is asked for,
      the depth suffices and some level with a price and a size begins within what is asked for. With
      positive prices there always is such a level. */
  lemma {:induction false} VwapNonzeroIff(depth: seq<(int, nat)>, x: real)
    ensures NonNegativePrices(depth) ==>
            (Vwap(depth, x) != 0.0 <==> x > 0.0 && DepthTotal(depth) as real >= x && SomePaidLevel(depth, x))
    ensures PositivePrices(depth) ==> (Vwap(depth, x) != 0.0 <==> x > 0.0 && DepthTotal(depth) as real >= x)
    ensures Vwap(depth, x) != 0.0 <==> x > 0.0 && DepthTotal(depth) as real >= x && DepthCost(depth, x) != 0.0
  {
    VwapZeroIff(depth, x);
    if NonNegativePrices(depth) {
      CostPositiveIff(depth, x);
      if PositivePrices(depth) && x > 0.0 && DepthTotal(depth) as real >= x {
        PositiveIsPaid(depth, x);
      }
    }
  }

  /** Enough depth at price zero gives no estimate. */
  lemma {:induction false} FreeDepthNoEstimate()
    ensures DepthTotal([(0, 1)]) == 1 && Vwap([(0, 1)], 1.0) == 0.0
  {
    assert [(0, 1)][1..] == [];
  }

  // ----- Against the matcher

  /** Cost of taking `n` units from the front of a flat side. */
  function FlatCost(f: seq<Order>, n: nat): real {
    if f == [] || n == 0 then 0.0
    else
      var t := Min(n, f[0].remaining);
      t as real * ToDouble(f[0].price) + FlatCost(f[1..], n - t)
  }

  /** What an aggressor of side `s` pays for its trades: each at the resting order's price. */
  function TradesCost(ts: seq<Trade>, s: Side): real {
    if ts == [] then 0.0
    else
      var resting := if s == Buy then ts[0].ask else ts[0].bid;
      resting.qty as real * ToDouble(resting.price) + TradesCost(ts[1..], s)
  }

  lemma {:induction false} TradesCostStep(t: Trade, ts: seq<Trade>, s: Side)
    ensures var resting := if s == Buy then t.ask else t.bid;
            TradesCost([t] + ts, s) == CostAt(resting.qty, resting.price) + TradesCost(ts, s)
  {
    assert ([t] + ts)[1..] == ts;
  }

  lemma {:induction false} WalkCost(contra: seq<Order>, o: Order)
    requires Walk(contra, o).filled
    ensures TradesCost(Walk(contra, o).trades, o.side) == FlatCost(contra, o.remaining)
  {
    var q := Min(o.remaining, contra[0].remaining);
    var t := TradeOf(o, contra[0], q);
    FlatCostStep(contra, o.remaining);
    if o.remaining == q {
      TradesCostStep(t, [], o.side);
    } else {
      var o' := o.(remaining := o.remaining - q);
      WalkCost(contra[1..], o');
      TradesCostStep(t, Walk(contra[1..], o').trades, o.side);
    }
  }

  /** Cost of `n` units at one price. */
  function CostAt(n: nat, price: int): real {
    n as real * ToDouble(price)
  }

  lemma {:induction false} CostAdd(a: nat, b: nat, price: int)
    ensures CostAt(a + b, price) == CostAt(a, price) + CostAt(b, price)
  {
    var p := ToDouble(price);
    assert (a as real + b as real) * p == a as real * p + b as real * p;
  }

  lemma {:induction false} FlatCostStep(f: seq<Order>, n: nat)
    requires f != []
    ensures var t := Min(n, f[0].remaining); FlatCost(f, n) == CostAt(t, f[0].price) + FlatCost(f[1..], n - t)
  {
    if n == 0 {
      assert CostAt(0, f[0].price) == 0.0;
    }
  }

  lemma {:induction false} LevelFlatCost(orders: seq<Order>, rest: seq<Order>, price: int, n: nat)
    requires forall k :: 0 <= k < |orders| ==> orders[k].price == price
    ensures FlatCost(orders + rest, n) ==
            var t := Min(n, Total(orders)); CostAt(t, price) + FlatCost(rest, n - t)
  {
    if orders == [] {
      assert orders + rest == rest;
      assert CostAt(0, price) == 0.0;
    } else {
      assert (orders + rest)[1..] == orders[1..] + rest;
      FlatCostStep(orders + rest, n);
      var t := Min(n, orders[0].remaining);
      LevelFlatCost(orders[1..], rest, price, n - t);
      CostAdd(t, Min(n - t, Total(orders[1..])), price);
    }
  }

  lemma {:induction false} DepthCostStep(price: int, total: nat, depth: seq<(int, nat)>, n: nat)
    ensures DepthCost([(price, total)] + depth, n as real) ==
            var t := Min(n, total); CostAt(t, price) + DepthCost(depth, (n - t) as real)
  {
    var d := [(price, total)] + depth;
    assert d[1..] == depth;
    if n == 0 {
      assert CostAt(0, price) == 0.0;
    } else {
      assert MinReal(n as real, total as real) == Min(n, total) as real;
      assert n as real - Min(n, total) as real == (n - Min(n, total)) as real;
    }
  }

  /** Walking published depth costs what walking the orders behind it costs. */
  lemma {:induction false} DepthIsFlat(levels: seq<Level>, s: Side, n: nat)
    requires SideWf(levels, s)
    ensures DepthCost(Depth(levels), n as real) == FlatCost(Flatten(levels), n)
  {
    if levels != [] {
      var l, rest := levels[0], levels[1..];
      assert LevelWf(l, s);
      var total := Total(l.orders);
      LevelFlatCost(l.orders, Flatten(rest), l.price, n);
      DepthIsFlat(rest, s, n - Min(n, total));
      if total > 0 {
        DepthCostStep(l.price, total, Depth(rest), n);
      } else {
        assert CostAt(0, l.price) == 0.0;
        assert [] + Depth(rest) == Depth(rest);
      }
    }
  }

  lemma {:induction false} DepthHoldsAll(levels: seq<Level>)
    ensures DepthTotal(Depth(levels)) == Total(Flatten(levels))
  {
    if levels != [] {
      var l, rest := levels[0], levels[1..];
      DepthHoldsAll(rest);
      TotalConcat(l.orders, Flatten(rest));
      if Total(l.orders) > 0 {
        assert ([(l.price, Total(l.orders))] + Depth(rest))[1..] == Depth(rest);
      } else {
        assert [] + Depth(rest) == Depth(rest);
      }
    }
  }

  lemma {:induction false} TotalConcat(f: seq<Order>, g: seq<Order>)
    ensures Total(f + g) == Total(f) + Total(g)
  {
    if f == [] {
      assert f + g == g;
    } else {
      assert (f + g)[1..] == f[1..] + g;
      TotalConcat(f[1..], g);
    }
  }

  lemma {:induction false} ReachWithinTotal(f: seq<Order>, s: Side, price: int)
    ensures Reach(f, s, price) <= Total(f)
  {
    if f != [] {
      ReachWithinTotal(f[1..], s, price);
    }
  }

  /** The estimate is the average price the matcher deals at: from an uncrossed book, when an
      aggressive order whose limit covers the levels it needs is added, the estimate taken just
      before is the cost of its trades over its quantity. */
  lemma {:induction false} VwapIsMatched(b: Book, o: Order)
    requires Wf(b) && !Crossed(b) && PassiveBook(b) && Accepts(b, o)
    requires o.remaining > 0 && Walk(Flatten(b.Of(o.side.Opposite())), o).filled
    ensures Vwap(Depth(b.Of(o.side.Opposite())), o.remaining as real)
            == TradesCost(AddOrder(b, o).trades, o.side) / o.remaining as real
  {
    FilledCost(b.Of(o.side.Opposite()), o);
    AcceptedIsWalk(b, o);
  }

  lemma {:induction false} FilledCost(contra: seq<Level>, o: Order)
    requires SideWf(contra, o.side.Opposite())
    requires o.remaining > 0 && Walk(Flatten(contra), o).filled
    ensures TradesCost(Walk(Flatten(contra), o).trades, o.side) == DepthCost(Depth(contra), o.remaining as real)
    ensures DepthTotal(Depth(contra)) >= o.remaining
  {
    WalkFilledIff(Flatten(contra), o);
    WalkCost(Flatten(contra), o);
    DepthIsFlat(contra, o.side.Opposite(), o.remaining);
    DepthHoldsAll(contra);
    ReachWithinTotal(Flatten(contra), o.side, o.price);
  }

  /** When the estimate reports insufficient depth, no limit lets an order of that size fill. */
  lemma {:induction false} NoEstimateNoFill(contra: seq<Level>, o: Order)
    requires SideWf(contra, o.side.Opposite()) && o.remaining > 0
    requires DepthTotal(Depth(contra)) < o.remaining
    ensures Vwap(Depth(contra), o.remaining as real) == 0.0
    ensures !Walk(Flatten(contra), o).filled
  {
    DepthHoldsAll(contra);
    ReachWithinTotal(Flatten(contra), o.side, o.price);
    WalkFilledIff(Flatten(contra), o);
  }
}
