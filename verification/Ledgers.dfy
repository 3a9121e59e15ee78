/** The two ledgers that follow the same fills: the portfolio keeps a cost basis per symbol, the
    analytics an average entry price and the commission still to be charged. Both treat quantities
    below `DUST` as zero. The results are that the two never part ways and that cash is always
    accounted for by the realized results and the open cost basis.
 */
module Ledgers {
  import opened Lots

  datatype Side = Buy | Sell

  datatype Fill = Fill(symbol: string, side: Side, qty: real, price: real, commission: real)

  /** An amount with the sign of the side: buying adds, selling takes away. */
  function Signed(s: Side, x: real): real {
    if s == Buy then x else -x
  }

  function Abs(x: real): (r: real)
    ensures r >= 0.0 && (r == x || r == -x)
  {
    if x < 0.0 then -x else x
  }

  function Min(a: real, b: real): (r: real)
    ensures r <= a && r <= b && (r == a || r == b)
  {
    if a <= b then a else b
  }

  /** Zero or clearly not zero. */
  predicate Solid(x: real) {
    x == 0.0 || Abs(x) > DUST
  }

  /** A fill against a position of the other sign. */
  predicate Opposes(qty: real, side: Side) {
    if side == Buy then qty < 0.0 else qty > 0.0
  }

  /** A part of a fill, with its share of the commission. */
  function Part(f: Fill, qty: real): Fill
    requires f.qty != 0.0
  {
    f.(qty := qty, commission := f.commission * (qty / f.qty))
  }

  /** The portfolio's parts: a fill that is dust carries no commission. */
  function NetPart(f: Fill, qty: real): Fill {
    if f.qty > DUST then Part(f, qty) else f.(qty := qty, commission := 0.0)
  }

  // ----- The portfolio's rule for one symbol

  datatype Position = Position(qty: real, basis: real)

  /** A position together with the change of cash that came with it. */
  datatype Netted = Netted(pos: Position, cash: real)

  /** What is left of `x` when `part` of `whole` goes. */
  function Kept(x: real, part: real, whole: real): real
    requires whole != 0.0
  {
    x * (1.0 - part / whole)
  }

  /** Closing `closed` for `value`: the basis shrinks to `kept`, and vanishes with the position. */
  function CloseBasis(p: Position, side: Side, closed: real, value: real, fee: real, kept: real): Netted {
    var qty := p.qty + Signed(side, closed);
    Netted(if Abs(qty) < DUST then Position(0.0, 0.0) else Position(qty, kept), -Signed(side, value) - fee)
  }

  function OpenBasis(p: Position, side: Side, added: real, value: real, fee: real): Netted {
    var cost := Signed(side, value) + fee;
    Netted(Position(p.qty + Signed(side, added), p.basis + cost), -cost)
  }

  /** One leg of a fill: it closes if it opposes the position, and opens otherwise. */
  function NetLeg(p: Position, g: Fill): Netted {
    if Opposes(p.qty, g.side)
    then CloseBasis(p, g.side, g.qty, g.qty * g.price, g.commission, Kept(p.basis, g.qty, Abs(p.qty)))
    else OpenBasis(p, g.side, g.qty, g.qty * g.price, g.commission)
  }

  /** The legs of a fill: what it closes, and what is left to open with unless that is dust. */
  function NetLegs(qty: real, f: Fill): seq<Fill> {
    if Opposes(qty, f.side) then
      var closed := Min(f.qty, Abs(qty));
      if f.qty - closed < DUST then [NetPart(f, closed)] else [NetPart(f, closed), NetPart(f, f.qty - closed)]
    else [NetPart(f, f.qty)]
  }

  // ----- The analytics' rule for one symbol

  datatype Entry = Entry(qty: real, avg: real, commission: real)

  datatype Marked = Marked(pos: Entry, cash: real, closed: bool, pnl: real)

  function Share(x: real, part: real, whole: real): real
    requires whole != 0.0
  {
    x * (part / whole)
  }

  function Average(avg: real, qty: real, price: real, added: real): real
    requires qty + added != 0.0
  {
    (avg * qty + price * added) / (qty + added)
  }

  /** Closing with the gross `gain` books the gain less both commissions. */
  function CloseEntry(e: Entry, side: Side, closed: real, value: real, fee: real, share: real, gain: real): Marked {
    var qty := e.qty + Signed(side, closed);
    Marked(if Abs(qty) < DUST then Entry(0.0, 0.0, 0.0) else Entry(qty, e.avg, e.commission - share),
           -Signed(side, value) - fee, true, (if e.qty > 0.0 then gain else -gain) - fee - share)
  }

  function OpenEntry(e: Entry, side: Side, added: real, value: real, fee: real, avg: real): Marked {
    Marked(Entry(e.qty + Signed(side, added), avg, e.commission + fee), -Signed(side, value) - fee, false, 0.0)
  }

  function MarkLeg(e: Entry, g: Fill): Marked
    requires g.qty > 0.0
  {
    if Abs(e.qty) > DUST && Opposes(e.qty, g.side)
    then CloseEntry(e, g.side, g.qty, g.qty * g.price, g.commission, Share(e.commission, g.qty, Abs(e.qty)),
                    (g.price - e.avg) * g.qty)
    else OpenEntry(e, g.side, g.qty, g.qty * g.price, g.commission, Average(e.avg, Abs(e.qty), g.price, g.qty))
  }

  function MarkLegs(qty: real, f: Fill): (gs: seq<Fill>)
    requires f.qty > 0.0
    ensures forall i :: 0 <= i < |gs| ==> gs[i].qty > 0.0
  {
    if Abs(qty) > DUST && Opposes(qty, f.side) then
      var closed := Min(Abs(qty), f.qty);
      if f.qty - closed > DUST then [Part(f, closed), Part(f, f.qty - closed)] else [Part(f, closed)]
    else if f.qty > DUST then [Part(f, f.qty)]
    else []
  }

  // ----- One leg

  /** The same quantity, and the basis is the entry value plus the commission still to be charged. */
  predicate Coupled(p: Position, e: Entry) {
    p.qty == e.qty && p.basis == e.qty * e.avg + e.commission
  }

  /** Two outcomes of the same leg on a coupled pair: still coupled, the same cash, and what left
      cash is either in the basis or in the realized result. */
  predicate Balanced(p: Position, n: Netted, m: Marked) {
    && Coupled(n.pos, m.pos) && n.cash == m.cash && n.cash == m.pnl + p.basis - n.pos.basis
    && (m.closed || m.pnl == 0.0)
  }

  /** A partial close, given what the amounts have to do with each other. */
  lemma {:induction false} CloseBalanced(p: Position, e: Entry, side: Side, closed: real, value: real, fee: real,
                                         kept: real, share: real, gain: real)
    requires Coupled(p, e) && Opposes(p.qty, side) && 0.0 < closed < Abs(p.qty) && Abs(p.qty) - closed >= DUST
    requires kept == (e.qty + Signed(side, closed)) * e.avg + (e.commission - share)
    requires value == gain + closed * e.avg
    ensures Balanced(p, CloseBasis(p, side, closed, value, fee, kept),
                     CloseEntry(e, side, closed, value, fee, share, gain))
  {
    assert (e.qty + Signed(side, closed)) * e.avg == e.qty * e.avg + Signed(side, closed * e.avg);
  }

  /** Closing all of a position. */
  lemma {:induction false} FlatBalanced(p: Position, e: Entry, side: Side, closed: real, value: real, fee: real,
                                        kept: real, share: real, gain: real)
    requires Coupled(p, e) && Opposes(p.qty, side) && closed == Abs(p.qty)
    requires share == e.commission && value == gain + closed * e.avg
    ensures Balanced(p, CloseBasis(p, side, closed, value, fee, kept),
                     CloseEntry(e, side, closed, value, fee, share, gain))
  {
    assert closed * e.avg == if p.qty > 0.0 then e.qty * e.avg else -(e.qty * e.avg);
  }

  lemma {:induction false} OpenBalanced(p: Position, e: Entry, side: Side, added: real, value: real, fee: real,
                                        avg: real)
    requires Coupled(p, e) && (e.qty + Signed(side, added)) * avg == e.qty * e.avg + Signed(side, value)
    ensures Balanced(p, OpenBasis(p, side, added, value, fee), OpenEntry(e, side, added, value, fee, avg))
  {
  }

  // ----- The amounts

  /** Releasing a fraction of the basis releases that fraction of the entry value and the commission. */
  lemma {:induction false} KeptAmount(basis: real, qty: real, avg: real, commission: real, side: Side, part: real)
    requires Opposes(qty, side) && basis == qty * avg + commission
    ensures Kept(basis, part, Abs(qty))
         == (qty + Signed(side, part)) * avg + (commission - Share(commission, part, Abs(qty)))
  {
    var r := part / Abs(qty);
    assert qty * r == -Signed(side, part);
    assert qty * avg * r == avg * (qty * r);
  }

  lemma {:induction false} AverageAmount(qty: real, avg: real, price: real, side: Side, added: real)
    requires !Opposes(qty, side) && added > 0.0
    ensures (qty + Signed(side, added)) * Average(avg, Abs(qty), price, added)
            == qty * avg + Signed(side, added * price)
  {
    var size := Abs(qty) + added;
    var value := avg * Abs(qty) + price * added;
    assert size * (value / size) == value;
    assert qty + Signed(side, added) == Signed(side, size);
  }

  lemma {:induction false} GainAmount(closed: real, price: real, avg: real)
    ensures closed * price == (price - avg) * closed + closed * avg
  {
  }

  lemma {:induction false} WholeShare(x: real, whole: real)
    requires whole != 0.0
    ensures Share(x, whole, whole) == x
  {
    assert whole / whole == 1.0;
  }

  function After(qty: real, f: Fill): real {
    qty + Signed(f.side, f.qty)
  }

  /** A leg does not go beyond the position it closes and leaves no dust of it. */
  predicate CleanLeg(qty: real, g: Fill) {
    && g.qty > 0.0 && Solid(qty)
    && (Opposes(qty, g.side) ==> g.qty == Abs(qty) || Abs(qty) - g.qty >= DUST)
  }

  lemma {:induction false} OpenLeg(p: Position, e: Entry, g: Fill)
    requires Coupled(p, e) && g.qty > 0.0 && !Opposes(p.qty, g.side)
    ensures Balanced(p, NetLeg(p, g), MarkLeg(e, g))
  {
    AverageAmount(e.qty, e.avg, g.price, g.side, g.qty);
    OpenBalanced(p, e, g.side, g.qty, g.qty * g.price, g.commission, Average(e.avg, Abs(e.qty), g.price, g.qty));
  }

  lemma {:induction false} FlatLeg(p: Position, e: Entry, g: Fill)
    requires Coupled(p, e) && Opposes(p.qty, g.side) && g.qty == Abs(p.qty) && g.qty > DUST
    ensures Balanced(p, NetLeg(p, g), MarkLeg(e, g))
  {
    var value, gain := g.qty * g.price, (g.price - e.avg) * g.qty;
    var kept, share := Kept(p.basis, g.qty, Abs(p.qty)), Share(e.commission, g.qty, Abs(e.qty));
    assert NetLeg(p, g) == CloseBasis(p, g.side, g.qty, value, g.commission, kept);
    assert MarkLeg(e, g) == CloseEntry(e, g.side, g.qty, value, g.commission, share, gain);
    GainAmount(g.qty, g.price, e.avg);
    WholeShare(e.commission, g.qty);
    FlatBalanced(p, e, g.side, g.qty, value, g.commission, kept, share, gain);
  }

  lemma {:induction false} PartLeg(p: Position, e: Entry, g: Fill)
    requires Coupled(p, e) && Opposes(p.qty, g.side) && Abs(p.qty) > DUST && 0.0 < g.qty && Abs(p.qty) - g.qty >= DUST
    ensures Balanced(p, NetLeg(p, g), MarkLeg(e, g))
  {
    var value, gain := g.qty * g.price, (g.price - e.avg) * g.qty;
    var kept, share := Kept(p.basis, g.qty, Abs(p.qty)), Share(e.commission, g.qty, Abs(e.qty));
    assert NetLeg(p, g) == CloseBasis(p, g.side, g.qty, value, g.commission, kept);
    assert MarkLeg(e, g) == CloseEntry(e, g.side, g.qty, value, g.commission, share, gain);
    GainAmount(g.qty, g.price, e.avg);
    KeptAmount(p.basis, e.qty, e.avg, e.commission, g.side, g.qty);
    CloseBalanced(p, e, g.side, g.qty, value, g.commission, kept, share, gain);
  }

  /** One leg keeps the two rules coupled. */
  lemma {:induction false} LegBalanced(p: Position, e: Entry, g: Fill)
    requires Coupled(p, e) && CleanLeg(p.qty, g)
    ensures Balanced(p, NetLeg(p, g), MarkLeg(e, g))
  {
    if !Opposes(p.qty, g.side) {
      OpenLeg(p, e, g);
    } else if g.qty == Abs(p.qty) {
      FlatLeg(p, e, g);
    } else {
      PartLeg(p, e, g);
    }
  }

  /** A leg moves the quantity by exactly its own. */
  lemma {:induction false} LegQuantity(p: Position, g: Fill)
    requires CleanLeg(p.qty, g)
    ensures NetLeg(p, g).pos.qty == After(p.qty, g)
  {
  }

  /** Without dust both rules split a fill in the same clean legs. */
  lemma {:induction false} SameLegs(qty: real, f: Fill)
    requires Solid(qty) && f.qty > DUST && Solid(After(qty, f))
    ensures NetLegs(qty, f) == MarkLegs(qty, f) && |NetLegs(qty, f)| in {1, 2}
    ensures CleanLeg(qty, NetLegs(qty, f)[0]) && NetLegs(qty, f)[0].symbol == f.symbol
    ensures |NetLegs(qty, f)| == 1 ==> After(qty, NetLegs(qty, f)[0]) == After(qty, f)
    ensures |NetLegs(qty, f)| == 2 ==>
      var g, h := NetLegs(qty, f)[0], NetLegs(qty, f)[1];
      After(qty, g) == 0.0 && CleanLeg(0.0, h) && After(0.0, h) == After(qty, f) && h.symbol == f.symbol
  {
  }

  /** The commission of a fill is charged exactly once. */
  lemma {:induction false} LegsCharge(qty: real, f: Fill)
    requires f.qty > DUST && Solid(After(qty, f))
    ensures |NetLegs(qty, f)| == 1 ==> NetLegs(qty, f)[0].commission == f.commission
    ensures |NetLegs(qty, f)| == 2 ==> NetLegs(qty, f)[0].commission + NetLegs(qty, f)[1].commission == f.commission
  {
    PartsCharge(f, Min(f.qty, Abs(qty)));
    PartsCharge(f, f.qty);
  }

  lemma {:induction false} PartsCharge(f: Fill, qty: real)
    requires f.qty > 0.0
    ensures Part(f, qty).commission + Part(f, f.qty - qty).commission == f.commission
    ensures Part(f, f.qty).commission == f.commission
  {
    var r := qty / f.qty;
    assert (1.0 - r) * f.qty == f.qty - qty;
    Cancel(1.0 - r, f.qty);
    Cancel(1.0, f.qty);
    assert f.commission * r + f.commission * (1.0 - r) == f.commission;
  }

  lemma {:induction false} Cancel(y: real, q: real)
    requires q != 0.0
    ensures (y * q) / q == y
  {
  }

  // ----- Sums over maps

  ghost function Sum(m: map<string, real>): real
    decreases m.Keys
  {
    if m == map[] then 0.0
    else
      var k :| k in m;
      m[k] + Sum(m - {k})
  }

  lemma {:induction false} SumWithout(m: map<string, real>, k: string)
    requires k in m
    ensures Sum(m) == m[k] + Sum(m - {k})
    decreases m.Keys
  {
    var j :| j in m && Sum(m) == m[j] + Sum(m - {j});
    if j != k {
      SumWithout(m - {j}, k);
      SumWithout(m - {k}, j);
      assert m - {j} - {k} == m - {k} - {j};
    }
  }

  function At(m: map<string, real>, k: string): real {
    if k in m then m[k] else 0.0
  }

  lemma {:induction false} SumUpdate(m: map<string, real>, k: string, x: real)
    ensures Sum(m[k := x]) == Sum(m) - At(m, k) + x
  {
    SumWithout(m[k := x], k);
    assert m[k := x] - {k} == m - {k};
    if k in m {
      SumWithout(m, k);
    } else {
      assert m - {k} == m;
    }
  }

  function SumOf(xs: seq<real>): real {
    if xs == [] then 0.0 else SumOf(xs[..|xs| - 1]) + xs[|xs| - 1]
  }

  // ----- The ledgers

  datatype Account = Account(cash: real, funding: real, positions: map<string, Position>)

  function PositionIn(m: map<string, Position>, k: string): Position {
    if k in m then m[k] else Position(0.0, 0.0)
  }

  function Post(a: Account, symbol: string, n: Netted): Account {
    Account(a.cash + n.cash, a.funding, a.positions[symbol := n.pos])
  }

  function BookLeg(a: Account, g: Fill): Account {
    Post(a, g.symbol, NetLeg(PositionIn(a.positions, g.symbol), g))
  }

  function BookLegs(a: Account, gs: seq<Fill>): Account
    decreases |gs|
  {
    if gs == [] then a else BookLegs(BookLeg(a, gs[0]), gs[1..])
  }

  function Book(a: Account, f: Fill): Account {
    BookLegs(a, NetLegs(PositionIn(a.positions, f.symbol).qty, f))
  }

  datatype Stats = Stats(cash: real, funding: real, entries: map<string, Entry>, win: real, loss: real,
                         wins: nat, pnls: seq<real>, bySymbol: map<string, real>)
  {
    function Realized(): real {
      win - loss
    }
  }

  function EntryIn(m: map<string, Entry>, k: string): Entry {
    if k in m then m[k] else Entry(0.0, 0.0, 0.0)
  }

  /** The trade statistics of one close. */
  function Tally(t: Stats, symbol: string, pnl: real): Stats {
    t.(win := if pnl > 0.0 then t.win + pnl else t.win,
       loss := if pnl > 0.0 then t.loss else t.loss + Abs(pnl),
       wins := if pnl > 0.0 then t.wins + 1 else t.wins,
       pnls := t.pnls + [pnl],
       bySymbol := t.bySymbol[symbol := At(t.bySymbol, symbol) + pnl])
  }

  function Note(t: Stats, symbol: string, m: Marked): Stats {
    var t' := t.(cash := t.cash + m.cash, entries := t.entries[symbol := m.pos]);
    if m.closed then Tally(t', symbol, m.pnl) else t'
  }

  function AnalyseLeg(t: Stats, g: Fill): Stats
    requires g.qty > 0.0
  {
    Note(t, g.symbol, MarkLeg(EntryIn(t.entries, g.symbol), g))
  }

  function AnalyseLegs(t: Stats, gs: seq<Fill>): Stats
    requires forall i :: 0 <= i < |gs| ==> gs[i].qty > 0.0
    decreases |gs|
  {
    if gs == [] then t else AnalyseLegs(AnalyseLeg(t, gs[0]), gs[1..])
  }

  function Analyse(t: Stats, f: Fill): Stats
    requires f.qty > 0.0
  {
    AnalyseLegs(t, MarkLegs(EntryIn(t.entries, f.symbol).qty, f))
  }

  // ----- What every run keeps

  function Bases(m: map<string, Position>): map<string, real> {
    map k | k in m :: m[k].basis
  }

  lemma {:induction false} BasesUpdate(m: map<string, Position>, k: string, p: Position)
    ensures Sum(Bases(m[k := p])) == Sum(Bases(m)) - PositionIn(m, k).basis + p.basis
  {
    assert Bases(m[k := p]) == Bases(m)[k := p.basis];
    SumUpdate(Bases(m), k, p.basis);
  }

  /** The statistics add up. */
  ghost predicate Tallied(t: Stats) {
    t.Realized() == SumOf(t.pnls) && t.Realized() == Sum(t.bySymbol)
  }

  /** The two ledgers agree, and cash is what came in and was earned less what is tied up. */
  ghost predicate InStep(initial: real, a: Account, t: Stats) {
    && a.cash == t.cash && a.funding == t.funding && a.positions.Keys == t.entries.Keys
    && (forall k :: k in a.positions ==> Coupled(a.positions[k], t.entries[k]))
    && a.cash == initial + a.funding + t.Realized() - Sum(Bases(a.positions))
    && Tallied(t)
  }

  lemma {:induction false} TallyAdds(t: Stats, symbol: string, pnl: real)
    requires Tallied(t)
    ensures Tallied(Tally(t, symbol, pnl)) && Tally(t, symbol, pnl).Realized() == t.Realized() + pnl
  {
    assert (t.pnls + [pnl])[..|t.pnls|] == t.pnls;
    SumUpdate(t.bySymbol, symbol, At(t.bySymbol, symbol) + pnl);
  }

  lemma {:induction false} PostInStep(initial: real, a: Account, t: Stats, symbol: string, n: Netted, m: Marked)
    requires InStep(initial, a, t) && Balanced(PositionIn(a.positions, symbol), n, m)
    ensures InStep(initial, Post(a, symbol, n), Note(t, symbol, m))
  {
    BasesUpdate(a.positions, symbol, n.pos);
    TallyAdds(t.(cash := t.cash + m.cash, entries := t.entries[symbol := m.pos]), symbol, m.pnl);
  }

  lemma {:induction false} LegInStep(initial: real, a: Account, t: Stats, g: Fill)
    requires InStep(initial, a, t) && CleanLeg(PositionIn(a.positions, g.symbol).qty, g)
    ensures InStep(initial, BookLeg(a, g), AnalyseLeg(t, g))
  {
    var p, e := PositionIn(a.positions, g.symbol), EntryIn(t.entries, g.symbol);
    LegBalanced(p, e, g);
    PostInStep(initial, a, t, g.symbol, NetLeg(p, g), MarkLeg(e, g));
  }

  lemma {:induction false} LegPositions(a: Account, g: Fill)
    requires CleanLeg(PositionIn(a.positions, g.symbol).qty, g)
    ensures PositionIn(BookLeg(a, g).positions, g.symbol).qty == After(PositionIn(a.positions, g.symbol).qty, g)
    ensures forall k :: k != g.symbol ==> PositionIn(BookLeg(a, g).positions, k) == PositionIn(a.positions, k)
  {
    LegQuantity(PositionIn(a.positions, g.symbol), g);
  }

  /** One or two clean legs of the same symbol keep the ledgers in step. */
  lemma {:induction false} LegsInStep(initial: real, a: Account, t: Stats, symbol: string, gs: seq<Fill>, qty: real)
    requires InStep(initial, a, t) && qty == PositionIn(a.positions, symbol).qty
    requires forall i :: 0 <= i < |gs| ==> gs[i].qty > 0.0 && gs[i].symbol == symbol
    requires |gs| <= 2 && (|gs| >= 1 ==> CleanLeg(qty, gs[0])) && (|gs| == 2 ==> CleanLeg(After(qty, gs[0]), gs[1]))
    ensures InStep(initial, BookLegs(a, gs), AnalyseLegs(t, gs))
    ensures |gs| == 1 ==> PositionIn(BookLegs(a, gs).positions, symbol).qty == After(qty, gs[0])
    ensures |gs| == 2 ==> PositionIn(BookLegs(a, gs).positions, symbol).qty == After(After(qty, gs[0]), gs[1])
    ensures forall k :: k != symbol ==> PositionIn(BookLegs(a, gs).positions, k) == PositionIn(a.positions, k)
    decreases |gs|
  {
    if gs != [] {
      LegInStep(initial, a, t, gs[0]);
      LegPositions(a, gs[0]);
      LegsInStep(initial, BookLeg(a, gs[0]), AnalyseLeg(t, gs[0]), symbol, gs[1..], After(qty, gs[0]));
    }
  }

  /** One fill without dust keeps the ledgers in step. */
  lemma {:induction false} FillInStep(initial: real, a: Account, t: Stats, f: Fill)
    requires InStep(initial, a, t) && f.qty > DUST
    requires Solid(PositionIn(a.positions, f.symbol).qty) && Solid(After(PositionIn(a.positions, f.symbol).qty, f))
    ensures InStep(initial, Book(a, f), Analyse(t, f))
    ensures PositionIn(Book(a, f).positions, f.symbol).qty == After(PositionIn(a.positions, f.symbol).qty, f)
    ensures forall k :: k != f.symbol ==> PositionIn(Book(a, f).positions, k) == PositionIn(a.positions, k)
  {
    var qty := PositionIn(a.positions, f.symbol).qty;
    SameLegs(qty, f);
    assert EntryIn(t.entries, f.symbol).qty == qty;
    LegsInStep(initial, a, t, f.symbol, NetLegs(qty, f), qty);
  }

  datatype Event = Filled(f: Fill) | Funded(delta: real)

  function RunAccount(initial: real, es: seq<Event>): Account {
    if es == [] then Account(initial, 0.0, map[])
    else
      var a := RunAccount(initial, es[..|es| - 1]);
      match es[|es| - 1]
      case Filled(f) => Book(a, f)
      case Funded(d) => a.(cash := a.cash + d, funding := a.funding + d)
  }

  predicate Positive(es: seq<Event>) {
    forall i :: 0 <= i < |es| && es[i].Filled? ==> es[i].f.qty > 0.0
  }

  function RunStats(initial: real, es: seq<Event>): Stats
    requires Positive(es)
  {
    if es == [] then Stats(initial, 0.0, map[], 0.0, 0.0, 0, [], map[])
    else
      var t := RunStats(initial, es[..|es| - 1]);
      match es[|es| - 1]
      case Filled(f) => Analyse(t, f)
      case Funded(d) => t.(cash := t.cash + d, funding := t.funding + d)
  }

  /** The quantity traded in a symbol, bought less sold. */
  function Traded(es: seq<Event>, symbol: string): real {
    if es == [] then 0.0
    else
      var q := Traded(es[..|es| - 1], symbol);
      var e := es[|es| - 1];
      if e.Filled? && e.f.symbol == symbol then After(q, e.f) else q
  }

  /** No fill and no quantity held along the way is dust. */
  ghost predicate NoDust(es: seq<Event>) {
    forall i :: 0 <= i < |es| && es[i].Filled? ==> es[i].f.qty > DUST && Solid(Traded(es[..i + 1], es[i].f.symbol))
  }

  lemma {:induction false} NoDustPrefix(es: seq<Event>)
    requires es != [] && NoDust(es)
    ensures NoDust(es[..|es| - 1])
  {
    var s := es[..|es| - 1];
    forall i | 0 <= i < |s| && s[i].Filled?
      ensures s[i].f.qty > DUST && Solid(Traded(s[..i + 1], s[i].f.symbol))
    {
      assert s[..i + 1] == es[..i + 1];
      assert es[i].Filled?;
    }
  }

  lemma {:induction false} TradedSolid(es: seq<Event>, symbol: string)
    requires NoDust(es)
    ensures Solid(Traded(es, symbol))
  {
    if es != [] {
      NoDustPrefix(es);
      TradedSolid(es[..|es| - 1], symbol);
      assert es[..|es| - 1 + 1] == es;
    }
  }

  /** Over every run of fills and funding without dust, the ledgers stay in step and both hold
      exactly the quantity traded. */
  lemma {:induction false} LedgersStayInStep(initial: real, es: seq<Event>)
    requires Positive(es) && NoDust(es)
    ensures InStep(initial, RunAccount(initial, es), RunStats(initial, es))
    ensures forall k :: PositionIn(RunAccount(initial, es).positions, k).qty == Traded(es, k)
  {
    if es != [] {
      var s, e := es[..|es| - 1], es[|es| - 1];
      NoDustPrefix(es);
      LedgersStayInStep(initial, s);
      if e.Filled? {
        TradedSolid(s, e.f.symbol);
        TradedSolid(es, e.f.symbol);
        FillInStep(initial, RunAccount(initial, s), RunStats(initial, s), e.f);
      }
    }
  }

  // ----- Whole lots

  lemma {:induction false} LotsSolid(x: real, lot: real)
    requires IsLots(x, lot) && lot > DUST
    ensures Solid(x)
  {
    LotsApart(x, lot);
  }

  lemma {:induction false} LotsTraded(es: seq<Event>, symbol: string, lot: real)
    requires forall i :: 0 <= i < |es| && es[i].Filled? ==> IsLots(es[i].f.qty, lot)
    ensures IsLots(Traded(es, symbol), lot)
  {
    if es == [] {
      NoLots(lot);
    } else {
      LotsTraded(es[..|es| - 1], symbol, lot);
      if es[|es| - 1].Filled? {
        LotsSum(Traded(es[..|es| - 1], symbol), es[|es| - 1].f.qty, lot);
      }
    }
  }

  /** Fills in whole lots above the dust threshold never leave dust. */
  lemma {:induction false} LotsLeaveNoDust(es: seq<Event>, lot: real)
    requires lot > DUST && Positive(es)
    requires forall i :: 0 <= i < |es| && es[i].Filled? ==> IsLots(es[i].f.qty, lot)
    ensures NoDust(es)
  {
    forall i | 0 <= i < |es| && es[i].Filled?
      ensures es[i].f.qty > DUST && Solid(Traded(es[..i + 1], es[i].f.symbol))
    {
      LotsSolid(es[i].f.qty, lot);
      LotsTraded(es[..i + 1], es[i].f.symbol, lot);
      LotsSolid(Traded(es[..i + 1], es[i].f.symbol), lot);
    }
  }

  // ----- Where dust is lost

  lemma {:induction false} BookUnrolled(a: Account, gs: seq<Fill>)
    ensures |gs| == 1 ==> BookLegs(a, gs) == BookLeg(a, gs[0])
    ensures |gs| == 2 ==> BookLegs(a, gs) == BookLeg(BookLeg(a, gs[0]), gs[1])
  {
    if |gs| == 2 {
      var b := BookLeg(a, gs[0]);
      assert BookLegs(a, gs) == BookLegs(b, gs[1..]);
      assert gs[1..] == [gs[1]];
      assert BookLegs(b, [gs[1]]) == BookLegs(BookLeg(b, gs[1]), []);
    }
  }

  lemma {:induction false} AnalyseUnrolled(t: Stats, gs: seq<Fill>)
    requires forall i :: 0 <= i < |gs| ==> gs[i].qty > 0.0
    ensures |gs| == 1 ==> AnalyseLegs(t, gs) == AnalyseLeg(t, gs[0])
    ensures |gs| == 2 ==> AnalyseLegs(t, gs) == AnalyseLeg(AnalyseLeg(t, gs[0]), gs[1])
  {
    if |gs| == 2 {
      var u := AnalyseLeg(t, gs[0]);
      assert AnalyseLegs(t, gs) == AnalyseLegs(u, gs[1..]);
      assert gs[1..] == [gs[1]];
      assert AnalyseLegs(u, [gs[1]]) == AnalyseLegs(AnalyseLeg(u, gs[1]), []);
    }
  }

  lemma {:induction false} BookQuantity(a: Account, f: Fill)
    ensures var qty, legs := PositionIn(a.positions, f.symbol).qty, NetLegs(PositionIn(a.positions, f.symbol).qty, f);
      PositionIn(Book(a, f).positions, f.symbol).qty ==
      if |legs| == 1 then LegQty(qty, legs[0]) else LegQty(LegQty(qty, legs[0]), legs[1])
  {
    var legs := NetLegs(PositionIn(a.positions, f.symbol).qty, f);
    BookUnrolled(a, legs);
    assert PositionIn(BookLeg(a, legs[0]).positions, f.symbol).qty
           == LegQty(PositionIn(a.positions, f.symbol).qty, legs[0]);
  }

  /** The quantity after one leg, by either rule. */
  function LegQty(qty: real, g: Fill): real {
    if Opposes(qty, g.side) && Abs(After(qty, g)) < DUST then 0.0 else After(qty, g)
  }

  lemma {:induction false} AnalyseQuantity(t: Stats, f: Fill)
    requires f.qty > 0.0 && Solid(EntryIn(t.entries, f.symbol).qty)
    ensures var qty, legs := EntryIn(t.entries, f.symbol).qty, MarkLegs(EntryIn(t.entries, f.symbol).qty, f);
      EntryIn(Analyse(t, f).entries, f.symbol).qty ==
      if |legs| == 0 then qty else if |legs| == 1 then LegQty(qty, legs[0]) else LegQty(LegQty(qty, legs[0]), legs[1])
  {
    var legs := MarkLegs(EntryIn(t.entries, f.symbol).qty, f);
    AnalyseUnrolled(t, legs);
    if |legs| > 0 {
      assert EntryIn(AnalyseLeg(t, legs[0]).entries, f.symbol).qty == LegQty(EntryIn(t.entries, f.symbol).qty, legs[0]);
    }
  }

  /** Both ledgers record the traded quantity exactly when no dust is left: the new quantity is zero
      or above the threshold, or sits on the threshold after a partial close. */
  lemma {:induction false} QuantityKeptIff(a: Account, t: Stats, f: Fill, qty: real)
    requires qty == PositionIn(a.positions, f.symbol).qty && qty == EntryIn(t.entries, f.symbol).qty
    requires Solid(qty) && f.qty > DUST
    ensures (&& PositionIn(Book(a, f).positions, f.symbol).qty == After(qty, f)
             && EntryIn(Analyse(t, f).entries, f.symbol).qty == After(qty, f))
       <==> Solid(After(qty, f)) || (Abs(After(qty, f)) == DUST && f.qty < Abs(qty))
  {
    BookQuantity(a, f);
    AnalyseQuantity(t, f);
    LegsQuantityIff(qty, f);
  }

  lemma {:induction false} LegsQuantityIff(qty: real, f: Fill)
    requires Solid(qty) && f.qty > DUST
    ensures var ns, ms := NetLegs(qty, f), MarkLegs(qty, f);
      (&& After(qty, f) == (if |ns| == 1 then LegQty(qty, ns[0]) else LegQty(LegQty(qty, ns[0]), ns[1]))
       && After(qty, f) == (if |ms| == 0 then qty else if |ms| == 1 then LegQty(qty, ms[0])
                            else LegQty(LegQty(qty, ms[0]), ms[1])))
      <==> Solid(After(qty, f)) || (Abs(After(qty, f)) == DUST && f.qty < Abs(qty))
  {
    if Opposes(qty, f.side) {
      var closed := Min(f.qty, Abs(qty));
      assert closed < f.qty ==> Abs(After(qty, f)) == f.qty - closed;
    }
  }

  // ----- The portfolio

  class Portfolio {
    var cash: real
    var funding: real
    var positions: map<string, Position>
    var trades: nat

    function State(): Account
      reads this
    {
      Account(cash, funding, positions)
    }

    constructor (initial: real)
      ensures State() == Account(initial, 0.0, map[])
    {
      cash, funding, positions, trades := initial, 0.0, map[], 0;
    }

    /** `on_funding` */
    method OnFunding(delta: real)
      modifies this
      ensures State() == old(State()).(cash := old(cash) + delta, funding := old(funding) + delta)
    {
      cash := cash + delta;
      funding := funding + delta;
    }

    /** A buy against a short position: the closed fraction of the basis is released. */
    method CloseShort(f: Fill, closed: real)
      requires f.side == Buy && PositionIn(positions, f.symbol).qty < 0.0
      modifies this
      ensures State() == BookLeg(old(State()), NetPart(f, closed))
    {
      var pos := PositionIn(positions, f.symbol);
      var frac := closed / -pos.qty;
      var fee := NetPart(f, closed).commission;
      ghost var n := NetLeg(pos, NetPart(f, closed));
      assert Abs(pos.qty) == -pos.qty && NetPart(f, closed) == f.(qty := closed, commission := fee);
      assert n == CloseBasis(pos, f.side, closed, closed * f.price, fee, pos.basis * (1.0 - frac));
      cash := cash - (closed * f.price + fee);
      pos := Position(pos.qty + closed, pos.basis * (1.0 - frac));
      if Abs(pos.qty) < DUST {
        pos := Position(0.0, 0.0);
        trades := trades + 1;
      }
      assert pos == n.pos && cash == old(cash) + n.cash;
      positions := positions[f.symbol := pos];
    }

    /** A sell against a long position. */
    method CloseLong(f: Fill, closed: real)
      requires f.side == Sell && 0.0 <= closed <= PositionIn(positions, f.symbol).qty
               && PositionIn(positions, f.symbol).qty > 0.0
      modifies this
      ensures State() == BookLeg(old(State()), NetPart(f, closed))
    {
      var pos := PositionIn(positions, f.symbol);
      var frac := closed / pos.qty;
      var fee := NetPart(f, closed).commission;
      ghost var n := NetLeg(pos, NetPart(f, closed));
      assert Abs(pos.qty) == pos.qty && NetPart(f, closed) == f.(qty := closed, commission := fee);
      assert n == CloseBasis(pos, f.side, closed, closed * f.price, fee, pos.basis * (1.0 - frac));
      cash := cash + (closed * f.price - fee);
      pos := Position(pos.qty - closed, pos.basis * (1.0 - frac));
      if pos.qty < DUST {
        pos := Position(0.0, 0.0);
        trades := trades + 1;
      }
      assert pos == n.pos && cash == old(cash) + n.cash;
      positions := positions[f.symbol := pos];
    }

    /** Opening or adding: the cost, commission included, moves from cash to the basis. */
    method Open(f: Fill, qty: real)
      requires !Opposes(PositionIn(positions, f.symbol).qty, f.side)
      modifies this
      ensures State() == BookLeg(old(State()), NetPart(f, qty))
    {
      var pos := PositionIn(positions, f.symbol);
      var fee := NetPart(f, qty).commission;
      ghost var n := NetLeg(pos, NetPart(f, qty));
      assert NetPart(f, qty).qty == qty && NetPart(f, qty).price == f.price && NetPart(f, qty).side == f.side;
      if f.side == Buy {
        pos := Position(pos.qty + qty, pos.basis + (qty * f.price + fee));
        cash := cash - (qty * f.price + fee);
      } else {
        pos := Position(pos.qty - qty, pos.basis - (qty * f.price - fee));
        cash := cash + (qty * f.price - fee);
      }
      assert pos == n.pos && cash == old(cash) + n.cash;
      positions := positions[f.symbol := pos];
    }

    /** `apply_netted_fill` */
    method ApplyNettedFill(f: Fill)
      requires f.qty >= 0.0
      modifies this
      ensures State() == Book(old(State()), f)
    {
      var qty := PositionIn(positions, f.symbol).qty;
      var left := f.qty;
      BookUnrolled(State(), NetLegs(qty, f));
      if f.side == Buy {
        if qty < 0.0 {
          var closed := Min(left, -qty);
          CloseShort(f, closed);
          left := left - closed;
          if left < DUST {
            return;
          }
        }
      } else {
        if qty > 0.0 {
          var closed := Min(left, qty);
          CloseLong(f, closed);
          left := left - closed;
          if left < DUST {
            return;
          }
        }
      }
      Open(f, left);
    }
  }

  // ----- The analytics

  class Analytics {
    var cash: real
    var funding: real
    var entries: map<string, Entry>
    var totalWin: real
    var totalLoss: real
    var winCount: nat
    var pnls: seq<real>
    var bySymbol: map<string, real>

    function State(): Stats
      reads this
    {
      Stats(cash, funding, entries, totalWin, totalLoss, winCount, pnls, bySymbol)
    }

    constructor (initial: real)
      ensures State() == Stats(initial, 0.0, map[], 0.0, 0.0, 0, [], map[])
    {
      cash, funding, entries := initial, 0.0, map[];
      totalWin, totalLoss, winCount, pnls, bySymbol := 0.0, 0.0, 0, [], map[];
    }

    method OnFunding(delta: real)
      modifies this
      ensures State() == old(State()).(cash := old(cash) + delta, funding := old(funding) + delta)
    {
      cash := cash + delta;
      funding := funding + delta;
    }

    /** The win and loss totals of one close. */
    method Record(symbol: string, pnl: real)
      modifies this`totalWin, this`totalLoss, this`winCount, this`pnls, this`bySymbol
      ensures State() == Tally(old(State()), symbol, pnl)
    {
      pnls := pnls + [pnl];
      if pnl > 0.0 {
        winCount := winCount + 1;
        totalWin := totalWin + pnl;
      } else {
        totalLoss := totalLoss + Abs(pnl);
      }
      bySymbol := bySymbol[symbol := At(bySymbol, symbol) + pnl];
    }

    method Close(f: Fill, closed: real)
      requires f.qty > 0.0 && closed > 0.0 && Abs(EntryIn(entries, f.symbol).qty) > DUST
      requires Opposes(EntryIn(entries, f.symbol).qty, f.side)
      modifies this
      ensures State() == AnalyseLeg(old(State()), Part(f, closed))
    {
      var pos := EntryIn(entries, f.symbol);
      ghost var m := MarkLeg(pos, Part(f, closed));
      var gain := (f.price - pos.avg) * closed;
      var fee := Part(f, closed).commission;
      var share := Share(pos.commission, closed, Abs(pos.qty));
      var pnl := (if pos.qty > 0.0 then gain else -gain) - fee - share;
      cash := cash + (-Signed(f.side, closed * f.price) - fee);
      var qty := pos.qty + Signed(f.side, closed);
      pos := if Abs(qty) < DUST then Entry(0.0, 0.0, 0.0) else Entry(qty, pos.avg, pos.commission - share);
      assert m == Marked(pos, -Signed(f.side, closed * f.price) - fee, true, pnl);
      entries := entries[f.symbol := pos];
      assert old(State()).(cash := cash, entries := entries) == State();
      Record(f.symbol, pnl);
    }

    method Open(f: Fill, qty: real)
      requires f.qty > 0.0 && qty > 0.0
      requires !(Abs(EntryIn(entries, f.symbol).qty) > DUST && Opposes(EntryIn(entries, f.symbol).qty, f.side))
      modifies this
      ensures State() == AnalyseLeg(old(State()), Part(f, qty))
    {
      var pos := EntryIn(entries, f.symbol);
      var fee := Part(f, qty).commission;
      entries := entries[f.symbol := Entry(pos.qty + Signed(f.side, qty),
                                           Average(pos.avg, Abs(pos.qty), f.price, qty), pos.commission + fee)];
      cash := cash - (Signed(f.side, qty * f.price) + fee);
    }

    /** `on_fill` */
    method OnFill(f: Fill)
      requires f.qty > 0.0
      modifies this
      ensures State() == Analyse(old(State()), f)
    {
      var pos := EntryIn(entries, f.symbol);
      var left := f.qty;
      AnalyseUnrolled(State(), MarkLegs(pos.qty, f));
      if Abs(pos.qty) > DUST && Opposes(pos.qty, f.side) {
        var closed := Min(Abs(pos.qty), left);
        Close(f, closed);
        left := left - closed;
      }
      if left > DUST {
        Open(f, left);
      }
    }
  }

  /** Two ledgers fed the same fills and funding end in step, with both holding what was traded. */
  method Follow(initial: real, es: seq<Event>) returns (p: Portfolio, t: Analytics)
    requires Positive(es) && NoDust(es)
    ensures InStep(initial, p.State(), t.State())
    ensures forall k :: PositionIn(p.positions, k).qty == Traded(es, k)
  {
    p := new Portfolio(initial);
    t := new Analytics(initial);
    for i := 0 to |es|
      invariant fresh(p) && fresh(t)
      invariant p.State() == RunAccount(initial, es[..i]) && t.State() == RunStats(initial, es[..i])
    {
      assert es[..i + 1][..i] == es[..i];
      match es[i] {
        case Filled(f) =>
          p.ApplyNettedFill(f);
          t.OnFill(f);
        case Funded(d) =>
          p.OnFunding(d);
          t.OnFunding(d);
      }
    }
    assert es[..|es|] == es;
    LedgersStayInStep(initial, es);
  }
}
