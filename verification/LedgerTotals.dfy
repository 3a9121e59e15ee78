/** The ledgers against the plain totals of a run: what was paid and received, what was bought and sold,
    and the profits and losses as they were booked.
 */
module LedgerTotals {
  import opened Lots
  import opened Ledgers

  // ----- Cash and quantity

  /** What a fill takes in, or pays out if negative, its commission included. */
  function Takes(f: Fill): real {
    match f.side
    case Buy => -(f.qty * f.price) - f.commission
    case Sell => f.qty * f.price - f.commission
  }

  /** What a run took in and was funded with, less what it paid out. */
  function Flow(es: seq<Event>): real {
    if es == [] then 0.0
    else
      match es[|es| - 1]
      case Funded(d) => Flow(es[..|es| - 1]) + d
      case Filled(f) => Flow(es[..|es| - 1]) + Takes(f)
  }

  /** What was bought less what was sold of a symbol. */
  function Net(es: seq<Event>, symbol: string): real {
    if es == [] then 0.0
    else
      var before, e := Net(es[..|es| - 1], symbol), es[|es| - 1];
      if e.Funded? || e.f.symbol != symbol then before
      else if e.f.side == Buy then before + e.f.qty else before - e.f.qty
  }

  lemma {:induction false} LegCash(a: Account, g: Fill)
    ensures BookLeg(a, g).cash == a.cash + Takes(g)
  {
  }

  /** The legs of a fill pay for all of it. */
  lemma {:induction false} LegsPay(qty: real, f: Fill)
    requires Solid(qty) && f.qty > DUST && Solid(After(qty, f))
    ensures var gs := NetLegs(qty, f);
      && |gs| in {1, 2} && (forall i :: 0 <= i < |gs| ==> gs[i].side == f.side)
      && (|gs| == 1 ==> gs[0].qty * gs[0].price == f.qty * f.price)
      && (|gs| == 2 ==> gs[0].qty * gs[0].price + gs[1].qty * gs[1].price == f.qty * f.price)
  {
    SameLegs(qty, f);
    var gs := NetLegs(qty, f);
    if |gs| == 1 {
      assert gs[0].qty == f.qty;
    } else {
      var closed := Min(f.qty, Abs(qty));
      assert gs[0].qty == closed && gs[1].qty == f.qty - closed;
      assert closed * f.price + (f.qty - closed) * f.price == f.qty * f.price;
    }
  }

  lemma {:induction false} LegsTake(qty: real, f: Fill)
    requires Solid(qty) && f.qty > DUST && Solid(After(qty, f))
    ensures var gs := NetLegs(qty, f);
      |gs| in {1, 2} && Takes(f) == if |gs| == 1 then Takes(gs[0]) else Takes(gs[0]) + Takes(gs[1])
  {
    LegsPay(qty, f);
    LegsCharge(qty, f);
  }

  lemma {:induction false} FillCash(a: Account, f: Fill)
    requires Solid(PositionIn(a.positions, f.symbol).qty) && f.qty > DUST
    requires Solid(After(PositionIn(a.positions, f.symbol).qty, f))
    ensures Book(a, f).cash == a.cash + Takes(f)
  {
    var gs := NetLegs(PositionIn(a.positions, f.symbol).qty, f);
    LegsTake(PositionIn(a.positions, f.symbol).qty, f);
    BookUnrolled(a, gs);
    LegCash(a, gs[0]);
    if |gs| == 2 {
      LegCash(BookLeg(a, gs[0]), gs[1]);
    }
  }

  lemma {:induction false} NetIsTraded(es: seq<Event>, symbol: string)
    ensures Net(es, symbol) == Traded(es, symbol)
  {
    if es != [] {
      NetIsTraded(es[..|es| - 1], symbol);
    }
  }

  /** Over every run without dust, both ledgers hold in cash what the run began with plus what it was
      funded, took in and paid, and of every symbol what was bought less what was sold. What was realized
      is therefore what came in and is not tied up. */
  lemma {:induction false} RunFollowsFlow(initial: real, es: seq<Event>)
    requires Ledgers.Positive(es) && NoDust(es)
    ensures var a, t := RunAccount(initial, es), RunStats(initial, es);
      && a.cash == t.cash == initial + Flow(es)
      && (forall k :: PositionIn(a.positions, k).qty == EntryIn(t.entries, k).qty == Net(es, k))
      && t.Realized() == Flow(es) - a.funding + Sum(Bases(a.positions))
  {
    LedgersStayInStep(initial, es);
    CashFollows(initial, es);
    var a, t := RunAccount(initial, es), RunStats(initial, es);
    forall k
      ensures PositionIn(a.positions, k).qty == EntryIn(t.entries, k).qty == Net(es, k)
    {
      NetIsTraded(es, k);
      assert k in a.positions <==> k in a.positions.Keys;
      assert k in t.entries <==> k in t.entries.Keys;
    }
  }

  lemma {:induction false} CashFollows(initial: real, es: seq<Event>)
    requires Ledgers.Positive(es) && NoDust(es)
    ensures RunAccount(initial, es).cash == initial + Flow(es)
  {
    if es != [] {
      var n := |es| - 1;
      NoDustPrefix(es);
      CashFollows(initial, es[..n]);
      if es[n].Filled? {
        SolidStep(initial, es);
        FillCash(RunAccount(initial, es[..n]), es[n].f);
      }
    }
  }

  lemma {:induction false} SolidStep(initial: real, es: seq<Event>)
    requires Ledgers.Positive(es) && NoDust(es) && es != [] && es[|es| - 1].Filled?
    ensures var f := es[|es| - 1].f;
      var qty := PositionIn(RunAccount(initial, es[..|es| - 1]).positions, f.symbol).qty;
      Solid(qty) && Solid(After(qty, f)) && f.qty > DUST
  {
    var n := |es| - 1;
    NoDustPrefix(es);
    LedgersStayInStep(initial, es[..n]);
    TradedSolid(es[..n], es[n].f.symbol);
    TradedSolid(es, es[n].f.symbol);
  }

  // ----- Symbol by symbol

  /** What the fills of one symbol took in less what they paid out. */
  function SymbolFlow(es: seq<Event>, symbol: string): real {
    if es == [] then 0.0
    else
      var e := es[|es| - 1];
      SymbolFlow(es[..|es| - 1], symbol) + if e.Filled? && e.f.symbol == symbol then Takes(e.f) else 0.0
  }

  /** What was realized in a symbol and is not tied up in it. */
  function Free(a: Account, t: Stats, symbol: string): real {
    At(t.bySymbol, symbol) - PositionIn(a.positions, symbol).basis
  }

  lemma {:induction false} NoteFrees(a: Account, t: Stats, own: string, n: Netted, m: Marked, symbol: string)
    requires Balanced(PositionIn(a.positions, own), n, m)
    ensures Free(Post(a, own, n), Note(t, own, m), symbol)
            == Free(a, t, symbol) + if symbol == own then n.cash else 0.0
  {
  }

  lemma {:induction false} LegTakes(p: Position, g: Fill)
    ensures NetLeg(p, g).cash == Takes(g)
  {
  }

  lemma {:induction false} LegIsBalanced(initial: real, a: Account, t: Stats, g: Fill)
    requires InStep(initial, a, t) && CleanLeg(PositionIn(a.positions, g.symbol).qty, g)
    ensures Balanced(PositionIn(a.positions, g.symbol), NetLeg(PositionIn(a.positions, g.symbol), g),
                     MarkLeg(EntryIn(t.entries, g.symbol), g))
  {
    var p, e := PositionIn(a.positions, g.symbol), EntryIn(t.entries, g.symbol);
    assert Coupled(p, e) by {
      assert g.symbol in a.positions <==> g.symbol in t.entries.Keys;
    }
    LegBalanced(p, e, g);
  }

  lemma {:induction false} LegFrees(a: Account, t: Stats, g: Fill, n: Netted, m: Marked, symbol: string)
    requires g.qty > 0.0 && Balanced(PositionIn(a.positions, g.symbol), n, m) && n.cash == Takes(g)
    requires n == NetLeg(PositionIn(a.positions, g.symbol), g) && m == MarkLeg(EntryIn(t.entries, g.symbol), g)
    ensures Free(BookLeg(a, g), AnalyseLeg(t, g), symbol)
            == Free(a, t, symbol) + if symbol == g.symbol then Takes(g) else 0.0
  {
    NoteFrees(a, t, g.symbol, n, m, symbol);
    assert BookLeg(a, g) == Post(a, g.symbol, n) && AnalyseLeg(t, g) == Note(t, g.symbol, m);
  }

  lemma {:induction false} CleanFrees(initial: real, a: Account, t: Stats, g: Fill, symbol: string)
    requires InStep(initial, a, t) && CleanLeg(PositionIn(a.positions, g.symbol).qty, g)
    ensures Free(BookLeg(a, g), AnalyseLeg(t, g), symbol)
            == Free(a, t, symbol) + if symbol == g.symbol then Takes(g) else 0.0
  {
    LegIsBalanced(initial, a, t, g);
    LegTakes(PositionIn(a.positions, g.symbol), g);
    LegFrees(a, t, g, NetLeg(PositionIn(a.positions, g.symbol), g), MarkLeg(EntryIn(t.entries, g.symbol), g), symbol);
  }

  lemma {:induction false} FillFrees(initial: real, a: Account, t: Stats, f: Fill, symbol: string)
    requires InStep(initial, a, t) && f.qty > DUST
    requires Solid(PositionIn(a.positions, f.symbol).qty) && Solid(After(PositionIn(a.positions, f.symbol).qty, f))
    ensures Free(Book(a, f), Analyse(t, f), symbol)
            == Free(a, t, symbol) + if symbol == f.symbol then Takes(f) else 0.0
  {
    var qty := PositionIn(a.positions, f.symbol).qty;
    var gs := NetLegs(qty, f);
    SameLegs(qty, f);
    LegsTake(qty, f);
    assert EntryIn(t.entries, f.symbol).qty == qty;
    BookUnrolled(a, gs);
    AnalyseUnrolled(t, gs);
    CleanFrees(initial, a, t, gs[0], symbol);
    if |gs| == 2 {
      LegInStep(initial, a, t, gs[0]);
      LegPositions(a, gs[0]);
      CleanFrees(initial, BookLeg(a, gs[0]), AnalyseLeg(t, gs[0]), gs[1], symbol);
    }
  }

  /** Over every run without dust, what was realized in a symbol is what its fills took in and is not tied
      up in its position. */
  lemma {:induction false} SymbolFollowsFlow(initial: real, es: seq<Event>, symbol: string)
    requires Ledgers.Positive(es) && NoDust(es)
    ensures At(RunStats(initial, es).bySymbol, symbol)
            == SymbolFlow(es, symbol) + PositionIn(RunAccount(initial, es).positions, symbol).basis
  {
    if es != [] {
      var n := |es| - 1;
      NoDustPrefix(es);
      SymbolFollowsFlow(initial, es[..n], symbol);
      if es[n].Filled? {
        SolidStep(initial, es);
        LedgersStayInStep(initial, es[..n]);
        FillFrees(initial, RunAccount(initial, es[..n]), RunStats(initial, es[..n]), es[n].f, symbol);
      }
    }
  }

  // ----- Profits and losses

  function Won(pnls: seq<real>): real {
    if pnls == [] then 0.0
    else Won(pnls[..|pnls| - 1]) + if pnls[|pnls| - 1] > 0.0 then pnls[|pnls| - 1] else 0.0
  }

  function Lost(pnls: seq<real>): real {
    if pnls == [] then 0.0
    else Lost(pnls[..|pnls| - 1]) + if pnls[|pnls| - 1] < 0.0 then -pnls[|pnls| - 1] else 0.0
  }

  function Winners(pnls: seq<real>): nat {
    if pnls == [] then 0
    else Winners(pnls[..|pnls| - 1]) + if pnls[|pnls| - 1] > 0.0 then 1 else 0
  }

  /** The totals of won and lost are those of the booked results, and so is the number of winners. */
  predicate TotalsAre(t: Stats) {
    t.win == Won(t.pnls) && t.loss == Lost(t.pnls) && t.wins == Winners(t.pnls)
  }

  lemma {:induction false} NoteTotals(t: Stats, symbol: string, m: Marked)
    requires TotalsAre(t)
    ensures TotalsAre(Note(t, symbol, m)) && |Note(t, symbol, m).pnls| == |t.pnls| + (if m.closed then 1 else 0)
  {
    assert (t.pnls + [m.pnl])[..|t.pnls|] == t.pnls;
  }

  lemma {:induction false} AnalyseTotals(t: Stats, f: Fill)
    requires TotalsAre(t) && f.qty > 0.0
    ensures TotalsAre(Analyse(t, f))
  {
    var legs := MarkLegs(EntryIn(t.entries, f.symbol).qty, f);
    AnalyseUnrolled(t, legs);
    if |legs| > 0 {
      NoteTotals(t, legs[0].symbol, MarkLeg(EntryIn(t.entries, legs[0].symbol), legs[0]));
    }
    if |legs| == 2 {
      var u := AnalyseLeg(t, legs[0]);
      NoteTotals(u, legs[1].symbol, MarkLeg(EntryIn(u.entries, legs[1].symbol), legs[1]));
    }
  }

  /** A result is booked exactly when a fill is against the position held, and then one. */
  lemma {:induction false} OneResultPerClose(t: Stats, f: Fill)
    requires f.qty > 0.0 && Abs(EntryIn(t.entries, f.symbol).qty) > DUST
    ensures var qty := EntryIn(t.entries, f.symbol).qty;
      |Analyse(t, f).pnls| == |t.pnls| + if (f.side == Buy && qty < 0.0) || (f.side == Sell && qty > 0.0) then 1 else 0
  {
    var e := EntryIn(t.entries, f.symbol);
    var legs := MarkLegs(e.qty, f);
    AnalyseUnrolled(t, legs);
    if |legs| == 2 {
      assert legs[0].qty == Abs(e.qty);
    }
  }

  /** Over every run the statistics of the analytics are those of the results it booked. */
  lemma {:induction false} RunTotals(initial: real, es: seq<Event>)
    requires Ledgers.Positive(es)
    ensures TotalsAre(RunStats(initial, es))
  {
    if es != [] {
      var n := |es| - 1;
      RunTotals(initial, es[..n]);
      if es[n].Filled? {
        AnalyseTotals(RunStats(initial, es[..n]), es[n].f);
      }
    }
  }

  // ----- Dust

  /** A fill that is dust: the portfolio books it without its commission, the analytics ignores it. So the
      two agree on cash exactly when the fill costs nothing. */
  lemma {:induction false} DustPartsIff(a: Account, t: Stats, f: Fill)
    requires 0.0 < f.qty <= DUST && a.cash == t.cash
    requires PositionIn(a.positions, f.symbol).qty == 0.0 && EntryIn(t.entries, f.symbol).qty == 0.0
    ensures Book(a, f).cash == a.cash + (if f.side == Buy then -(f.qty * f.price) else f.qty * f.price)
    ensures Analyse(t, f) == t
    ensures Book(a, f).cash == Analyse(t, f).cash <==> f.price == 0.0
  {
    BookUnrolled(a, NetLegs(0.0, f));
    AnalyseUnrolled(t, MarkLegs(0.0, f));
    LegCash(a, NetPart(f, f.qty));
  }

  /** A tenth of the threshold bought at 100 leaves the two ledgers apart. */
  lemma {:induction false} DustParts()
    ensures var es := [Filled(Fill("X", Buy, DUST / 10.0, 100.0, 0.0))];
      RunAccount(0.0, es).cash < 0.0 && RunStats(0.0, es).cash == 0.0
  {
    var f := Fill("X", Buy, DUST / 10.0, 100.0, 0.0);
    var es := [Filled(f)];
    assert es[..0] == [];
    DustPartsIff(Account(0.0, 0.0, map[]), Stats(0.0, 0.0, map[], 0.0, 0.0, 0, [], map[]), f);
  }
}
