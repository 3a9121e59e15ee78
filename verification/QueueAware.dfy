/** The paper adapter that keeps orders in virtual queues and moves them with the trade tape and the
    reported depth. An order alone at its price moves exactly as the queue model says, whatever the
    other orders do, so the bracketing of the three cancel models carries over to whole runs.
 */
module QueueAware {
  import opened Latency
  import opened QueueModel

  /** A price level; prices are on a grid. */
  datatype Key = Key(symbol: string, buy: bool, price: int)

  datatype Paper = Paper(key: Key, place: Place)

  datatype Fill = Fill(id: nat, qty: real, price: int)

  datatype State = State(orders: map<nat, Paper>, levels: map<Key, Level>, fills: seq<Fill>)

  function LevelAt(levels: map<Key, Level>, k: Key): Level {
    if k in levels then levels[k] else Level(0.0, 0.0)
  }

  /** Trades do not tell their side: an order of either side matches. */
  predicate Matches(o: Paper, symbol: string, price: int) {
    o.key.symbol == symbol && o.key.price == price
  }

  // ----- A trade over the orders, in the order of `ids`

  /** The orders so far, what is left of the trade, what it took from queues ahead, and the fills. */
  datatype Sweep = Sweep(orders: map<nat, Paper>, left: real, taken: real, fills: seq<Fill>)

  /** One order's turn: what is ahead of it goes first, then the order itself. */
  function Turn(s: Sweep, id: nat, symbol: string, price: int): Sweep {
    if id !in s.orders || !Matches(s.orders[id], symbol, price) then s
    else
      var p := s.orders[id].place;
      var consumed := Min(s.left, p.ahead);
      var ahead, rest := p.ahead - consumed, s.left - consumed;
      if ahead <= 0.0 && rest > 0.0 then
        var qty := Min(rest, p.left);
        var p' := Place(ahead, p.left - qty, p.filled + qty);
        Sweep(if p'.left <= 0.0 then s.orders - {id} else s.orders[id := s.orders[id].(place := p')],
              rest - qty, s.taken + consumed, s.fills + [Fill(id, qty, price)])
      else Sweep(s.orders[id := s.orders[id].(place := p.(ahead := ahead))], rest, s.taken + consumed, s.fills)
  }

  function TradeOver(orders: map<nat, Paper>, ids: seq<nat>, symbol: string, price: int, qty: real): Sweep
    decreases |ids|
  {
    if ids == [] then Sweep(orders, qty, 0.0, [])
    else Turn(TradeOver(orders, ids[..|ids| - 1], symbol, price, qty), ids[|ids| - 1], symbol, price)
  }

  function Marked(levels: map<Key, Level>, symbol: string, price: int, qty: real): map<Key, Level> {
    var b, a := Key(symbol, true, price), Key(symbol, false, price);
    levels[b := NextLevel(LevelAt(levels, b), Trade(qty))][a := NextLevel(LevelAt(levels, a), Trade(qty))]
  }

  function TradeStep(s: State, ids: seq<nat>, symbol: string, price: int, qty: real): State {
    if qty <= 0.0 then s
    else
      var t := TradeOver(s.orders, ids, symbol, price, qty);
      State(t.orders, Marked(s.levels, symbol, price, qty), s.fills + t.fills)
  }

  // ----- Reported depth

  function DepthStep(m: Model, s: State, k: Key, size: real): State {
    var lv := LevelAt(s.levels, k);
    s.(orders := map id | id in s.orders ::
         if s.orders[id].key == k then s.orders[id].(place := Shrunk(m, s.orders[id].place, lv, size))
         else s.orders[id],
       levels := s.levels[k := Level(size, 0.0)])
  }

  function SubmitStep(s: State, id: nat, k: Key, qty: real): State {
    s.(orders := s.orders[id := Paper(k, Join(LevelAt(s.levels, k), qty))])
  }

  function LeaveStep(s: State, id: nat): State {
    s.(orders := s.orders - {id})
  }

  // ----- What a trade moves

  function FillSum(fs: seq<Fill>): real {
    if fs == [] then 0.0 else FillSum(fs[..|fs| - 1]) + fs[|fs| - 1].qty
  }

  /** What the fills give one order. */
  function FilledOf(fs: seq<Fill>, id: nat): real {
    if fs == [] then 0.0
    else FilledOf(fs[..|fs| - 1], id) + if fs[|fs| - 1].id == id then fs[|fs| - 1].qty else 0.0
  }

  lemma {:induction false} FilledMore(fs: seq<Fill>, f: Fill, id: nat)
    ensures FilledOf(fs + [f], id) == FilledOf(fs, id) + if f.id == id then f.qty else 0.0
  {
    assert (fs + [f])[..|fs|] == fs;
  }

  lemma {:induction false} FilledConcat(fs: seq<Fill>, gs: seq<Fill>, id: nat)
    ensures FilledOf(fs + gs, id) == FilledOf(fs, id) + FilledOf(gs, id)
  {
    if gs == [] {
      assert fs + gs == fs;
    } else {
      FilledConcat(fs, gs[..|gs| - 1], id);
      assert (fs + gs)[..|fs + gs| - 1] == fs + gs[..|gs| - 1];
    }
  }

  predicate Sane(orders: map<nat, Paper>) {
    forall id :: id in orders ==> orders[id].place.ahead >= 0.0 && orders[id].place.left >= 0.0
  }

  lemma {:induction false} TurnConserves(s: Sweep, id: nat, symbol: string, price: int)
    requires Sane(s.orders) && s.left >= 0.0
    ensures var s' := Turn(s, id, symbol, price);
      && Sane(s'.orders) && s'.left >= 0.0 && s'.taken >= s.taken
      && s'.left + s'.taken + FillSum(s'.fills) == s.left + s.taken + FillSum(s.fills)
  {
    if id in s.orders && Matches(s.orders[id], symbol, price) {
      var p := s.orders[id].place;
      var consumed := Min(s.left, p.ahead);
      var qty := Min(s.left - consumed, p.left);
      assert (s.fills + [Fill(id, qty, price)])[..|s.fills|] == s.fills;
    }
  }

  /** Queue consumption and fills of a trade add up to no more than the traded quantity. */
  lemma {:induction false} TradeConserves(orders: map<nat, Paper>, ids: seq<nat>, symbol: string, price: int, qty: real)
    requires Sane(orders) && qty >= 0.0
    ensures var t := TradeOver(orders, ids, symbol, price, qty);
      Sane(t.orders) && t.left >= 0.0 && t.taken >= 0.0 && t.taken + FillSum(t.fills) == qty - t.left
    decreases |ids|
  {
    if ids != [] {
      TradeConserves(orders, ids[..|ids| - 1], symbol, price, qty);
      TurnConserves(TradeOver(orders, ids[..|ids| - 1], symbol, price, qty), ids[|ids| - 1], symbol, price);
    }
  }

  // ----- An order alone at its price

  predicate Alone(orders: map<nat, Paper>, id: nat, symbol: string, price: int) {
    forall j :: j in orders && Matches(orders[j], symbol, price) ==> j == id
  }

  predicate Visits(ids: seq<nat>, orders: map<nat, Paper>) {
    && (forall id :: id in orders ==> id in ids)
    && forall i, j :: 0 <= i < j < |ids| ==> ids[i] != ids[j]
  }

  /** Turns of other orders change nothing. */
  lemma {:induction false} OthersPass(orders: map<nat, Paper>, ids: seq<nat>, symbol: string, price: int, qty: real,
                                      id: nat)
    requires Alone(orders, id, symbol, price) && id !in ids
    ensures TradeOver(orders, ids, symbol, price, qty) == Sweep(orders, qty, 0.0, [])
    decreases |ids|
  {
    if ids != [] {
      OthersPass(orders, ids[..|ids| - 1], symbol, price, qty, id);
    }
  }

  /** The order's own turn, wherever it comes, sees the whole trade. */
  lemma {:induction false} AloneTrade(orders: map<nat, Paper>, ids: seq<nat>, symbol: string, price: int, qty: real,
                                      id: nat)
    requires Alone(orders, id, symbol, price) && Visits(ids, orders) && id in orders
    ensures TradeOver(orders, ids, symbol, price, qty) == Turn(Sweep(orders, qty, 0.0, []), id, symbol, price)
    decreases |ids|
  {
    AloneSome(orders, ids, symbol, price, qty, id);
  }

  lemma {:induction false} AloneSome(orders: map<nat, Paper>, ids: seq<nat>, symbol: string, price: int, qty: real,
                                     id: nat)
    requires Alone(orders, id, symbol, price) && id in ids
    requires forall i, j :: 0 <= i < j < |ids| ==> ids[i] != ids[j]
    ensures TradeOver(orders, ids, symbol, price, qty) == Turn(Sweep(orders, qty, 0.0, []), id, symbol, price)
    decreases |ids|
  {
    var n := |ids| - 1;
    if ids[n] == id {
      OthersPass(orders, ids[..n], symbol, price, qty, id);
    } else {
      assert id in ids[..n];
      AloneSome(orders, ids[..n], symbol, price, qty, id);
      TurnIgnores(Turn(Sweep(orders, qty, 0.0, []), id, symbol, price), orders, ids[n], symbol, price, id);
    }
  }

  lemma {:induction false} TurnIgnores(s: Sweep, orders: map<nat, Paper>, other: nat, symbol: string, price: int,
                                       id: nat)
    requires Alone(orders, id, symbol, price) && other != id
    requires forall j :: j != id ==> (j in s.orders <==> j in orders) && (j in orders ==> s.orders[j] == orders[j])
    ensures Turn(s, other, symbol, price) == s
  {
  }

  // ----- Runs of the adapter

  datatype Step =
    | Tape(symbol: string, price: int, qty: real)
    | Book(key: Key, size: real)
    | Enter(id: nat, key: Key, qty: real)
    | Leave(id: nat)

  /** Other orders come and go at other prices only. */
  predicate Apart(e: Step, id: nat, k: Key) {
    match e
    case Enter(j, key, _) => j != id && !(key.symbol == k.symbol && key.price == k.price)
    case Leave(j) => j != id
    case _ => true
  }

  /** One step, with the orders visited in any order. */
  ghost predicate Next(m: Model, s: State, e: Step, s': State) {
    match e
    case Tape(symbol, price, qty) => exists ids :: Visits(ids, s.orders) && s' == TradeStep(s, ids, symbol, price, qty)
    case Book(k, size) => s' == DepthStep(m, s, k, size)
    case Enter(id, k, qty) => s' == SubmitStep(s, id, k, qty)
    case Leave(id) => s' == LeaveStep(s, id)
  }

  ghost predicate Trace(m: Model, ss: seq<State>, es: seq<Step>) {
    |ss| == |es| + 1 && forall i :: 0 <= i < |es| ==> Next(m, ss[i], es[i], ss[i + 1])
  }

  /** What a step means at one level. */
  function EventsAt(es: seq<Step>, k: Key): seq<Event>
    decreases |es|
  {
    if es == [] then []
    else EventsAt(es[..|es| - 1], k) + EventAt(es[|es| - 1], k)
  }

  function EventAt(e: Step, k: Key): seq<Event> {
    match e
    case Tape(symbol, price, qty) => if symbol == k.symbol && price == k.price then [Trade(qty)] else []
    case Book(key, size) => if key == k then [Depth(size)] else []
    case _ => []
  }

  /** The adapter shows an order at place `p`: it holds it until it is filled. */
  predicate Shows(s: State, id: nat, k: Key, p: Place) {
    && Alone(s.orders, id, k.symbol, k.price)
    && if p.left > 0.0 then id in s.orders && s.orders[id] == Paper(k, p) else id !in s.orders
  }

  function After(m: Model, p: Place, lv: Level, es: seq<Event>): Place {
    if es == [] then p else NextPlace(m, p, lv, es[0])
  }

  /** From `s` to `s'` the order moves from place `p` to `p'`, and the fills emitted say so. */
  predicate Moves(s: State, s': State, id: nat, k: Key, p: Place, p': Place) {
    Shows(s', id, k, p') && FilledOf(s'.fills, id) - FilledOf(s.fills, id) == p'.filled - p.filled
  }

  /** The order's own turn. */
  lemma {:induction false} OwnTurn(orders: map<nat, Paper>, id: nat, k: Key, p: Place, qty: real)
    requires id in orders && orders[id] == Paper(k, p) && p.left > 0.0
    ensures var t, p' := Turn(Sweep(orders, qty, 0.0, []), id, k.symbol, k.price), Traded(p, qty);
      && t.orders == (if p'.left > 0.0 then orders[id := Paper(k, p')] else orders - {id})
      && FilledOf(t.fills, id) == p'.filled - p.filled
  {
    FilledMore([], Fill(id, Min(qty - Min(qty, p.ahead), p.left), k.price), id);
  }

  lemma {:induction false} StillAlone(orders: map<nat, Paper>, id: nat, k: Key, p: Place)
    requires Alone(orders, id, k.symbol, k.price)
    ensures Alone(orders[id := Paper(k, p)], id, k.symbol, k.price) && Alone(orders - {id}, id, k.symbol, k.price)
  {
  }

  lemma {:induction false} TradeHere(s: State, ids: seq<nat>, id: nat, k: Key, p: Place, qty: real)
    requires Shows(s, id, k, p) && p.left > 0.0 && qty > 0.0 && Visits(ids, s.orders)
    ensures Moves(s, TradeStep(s, ids, k.symbol, k.price, qty), id, k, p, Traded(p, qty))
  {
    AloneTrade(s.orders, ids, k.symbol, k.price, qty, id);
    OwnTurn(s.orders, id, k, p, qty);
    StillAlone(s.orders, id, k, Traded(p, qty));
    FilledConcat(s.fills, TradeOver(s.orders, ids, k.symbol, k.price, qty).fills, id);
  }

  lemma {:induction false} TradeAfterFill(s: State, ids: seq<nat>, id: nat, k: Key, p: Place, qty: real)
    requires Shows(s, id, k, p) && p.left == 0.0 && qty > 0.0
    ensures Moves(s, TradeStep(s, ids, k.symbol, k.price, qty), id, k, p, Traded(p, qty))
  {
    NoneMatch(s.orders, ids, k.symbol, k.price, qty, id);
    assert s.fills + [] == s.fills;
  }

  lemma {:induction false} TradeElsewhere(s: State, ids: seq<nat>, symbol: string, price: int, id: nat, k: Key,
                                          p: Place, qty: real)
    requires Shows(s, id, k, p) && (symbol != k.symbol || price != k.price) && qty > 0.0
    ensures Moves(s, TradeStep(s, ids, symbol, price, qty), id, k, p, p)
  {
    ElsewhereTrade(s.orders, ids, symbol, price, qty, id, k);
    FilledConcat(s.fills, TradeOver(s.orders, ids, symbol, price, qty).fills, id);
  }

  lemma {:induction false} TradeProjects(s: State, ids: seq<nat>, e: Step, id: nat, k: Key, p: Place, m: Model)
    requires Shows(s, id, k, p) && p.ahead >= 0.0 && p.left >= 0.0 && e.Tape? && Visits(ids, s.orders)
    ensures Moves(s, TradeStep(s, ids, e.symbol, e.price, e.qty), id, k, p,
                  After(m, p, LevelAt(s.levels, k), EventAt(e, k)))
  {
    if e.qty > 0.0 {
      if e.symbol != k.symbol || e.price != k.price {
        TradeElsewhere(s, ids, e.symbol, e.price, id, k, p, e.qty);
      } else if p.left > 0.0 {
        TradeHere(s, ids, id, k, p, e.qty);
      } else {
        TradeAfterFill(s, ids, id, k, p, e.qty);
      }
    }
  }

  /** A trade at a price where no order rests. */
  lemma {:induction false} NoneMatch(orders: map<nat, Paper>, ids: seq<nat>, symbol: string, price: int, qty: real,
                                     id: nat)
    requires Alone(orders, id, symbol, price) && id !in orders
    ensures TradeOver(orders, ids, symbol, price, qty) == Sweep(orders, qty, 0.0, [])
    decreases |ids|
  {
    if ids != [] {
      NoneMatch(orders, ids[..|ids| - 1], symbol, price, qty, id);
    }
  }

  /** A trade at another price leaves an order and its surroundings as they are. */
  lemma {:induction false} ElsewhereTrade(orders: map<nat, Paper>, ids: seq<nat>, symbol: string, price: int,
                                          qty: real, id: nat, k: Key)
    requires Alone(orders, id, k.symbol, k.price) && (symbol != k.symbol || price != k.price)
    requires id in orders ==> orders[id].key == k
    ensures var t := TradeOver(orders, ids, symbol, price, qty);
      && Alone(t.orders, id, k.symbol, k.price) && (id in t.orders <==> id in orders)
      && (id in orders ==> t.orders[id] == orders[id])
      && FilledOf(t.fills, id) == 0.0
    decreases |ids|
  {
    if ids != [] {
      var before := TradeOver(orders, ids[..|ids| - 1], symbol, price, qty);
      ElsewhereTrade(orders, ids[..|ids| - 1], symbol, price, qty, id, k);
      OtherTurn(before, ids[|ids| - 1], symbol, price, id, k);
    }
  }

  /** A turn at another price. */
  lemma {:induction false} OtherTurn(s: Sweep, other: nat, symbol: string, price: int, id: nat, k: Key)
    requires Alone(s.orders, id, k.symbol, k.price) && (symbol != k.symbol || price != k.price)
    requires id in s.orders ==> s.orders[id].key == k
    ensures var t := Turn(s, other, symbol, price);
      && Alone(t.orders, id, k.symbol, k.price) && (id in t.orders <==> id in s.orders)
      && (id in s.orders ==> t.orders[id] == s.orders[id]) && FilledOf(t.fills, id) == FilledOf(s.fills, id)
  {
    if other in s.orders && Matches(s.orders[other], symbol, price) {
      var p := s.orders[other].place;
      FilledMore(s.fills, Fill(other, Min(s.left - Min(s.left, p.ahead), p.left), price), id);
    }
  }

  lemma {:induction false} NextNonNegative(m: Model, p: Place, lv: Level, e: Event)
    requires p.ahead >= 0.0 && p.left >= 0.0
    ensures NextPlace(m, p, lv, e).ahead >= 0.0 && NextPlace(m, p, lv, e).left >= 0.0
  {
  }

  lemma {:induction false} DepthProjects(m: Model, s: State, e: Step, id: nat, k: Key, p: Place)
    requires Shows(s, id, k, p) && e.Book?
    ensures Moves(s, DepthStep(m, s, e.key, e.size), id, k, p, After(m, p, LevelAt(s.levels, k), EventAt(e, k)))
  {
    var s' := DepthStep(m, s, e.key, e.size);
    forall j | j in s'.orders && Matches(s'.orders[j], k.symbol, k.price)
      ensures j == id
    {
      assert Matches(s.orders[j], k.symbol, k.price);
    }
  }

  lemma {:induction false} StepProjects(m: Model, s: State, e: Step, s': State, id: nat, k: Key, p: Place)
    requires Next(m, s, e, s') && Apart(e, id, k) && Shows(s, id, k, p) && p.ahead >= 0.0 && p.left >= 0.0
    ensures Moves(s, s', id, k, p, After(m, p, LevelAt(s.levels, k), EventAt(e, k)))
    ensures LevelAt(s'.levels, k) ==
            if EventAt(e, k) == [] then LevelAt(s.levels, k) else NextLevel(LevelAt(s.levels, k), EventAt(e, k)[0])
  {
    match e
    case Tape(symbol, price, qty) =>
      var ids :| Visits(ids, s.orders) && s' == TradeStep(s, ids, symbol, price, qty);
      TradeProjects(s, ids, e, id, k, p, m);
    case Book(_, _) => DepthProjects(m, s, e, id, k, p);
    case Enter(_, _, _) =>
    case Leave(_) =>
  }

  lemma {:induction false} OneMore(m: Model, p: Place, lv: Level, es: seq<Event>, more: seq<Event>)
    requires |more| <= 1
    ensures PlaceAfter(m, p, lv, es + more) == After(m, PlaceAfter(m, p, lv, es), LevelAfter(lv, es), more)
    ensures LevelAfter(lv, es + more) ==
            if more == [] then LevelAfter(lv, es) else NextLevel(LevelAfter(lv, es), more[0])
  {
    if more == [] {
      assert es + more == es;
    } else {
      assert (es + more)[..|es + more| - 1] == es;
    }
  }

  /** Over every run, whichever way orders are visited, an order alone at its price is where the
      queue model puts it, and its fills add up to what the model has filled. */
  lemma {:induction false} TraceProjects(m: Model, ss: seq<State>, es: seq<Step>, id: nat, k: Key, p: Place)
    requires Trace(m, ss, es) && Shows(ss[0], id, k, p) && p.ahead >= 0.0 && p.left >= 0.0
    requires forall i :: 0 <= i < |es| ==> Apart(es[i], id, k)
    ensures var lv, events := LevelAt(ss[0].levels, k), EventsAt(es, k);
      && Shows(ss[|es|], id, k, PlaceAfter(m, p, lv, events))
      && LevelAt(ss[|es|].levels, k) == LevelAfter(lv, events)
      && FilledOf(ss[|es|].fills, id) - FilledOf(ss[0].fills, id) == PlaceAfter(m, p, lv, events).filled - p.filled
      && PlaceAfter(m, p, lv, events).ahead >= 0.0 && PlaceAfter(m, p, lv, events).left >= 0.0
    decreases |es|
  {
    if es != [] {
      var n, lv := |es| - 1, LevelAt(ss[0].levels, k);
      var events := EventsAt(es[..n], k);
      TraceProjects(m, ss[..n + 1], es[..n], id, k, p);
      var q := PlaceAfter(m, p, lv, events);
      assert ss[..n + 1][n] == ss[n] && ss[..n + 1][0] == ss[0];
      StepProjects(m, ss[n], es[n], ss[n + 1], id, k, q);
      OneMore(m, p, lv, events, EventAt(es[n], k));
      if EventAt(es[n], k) != [] {
        NextNonNegative(m, q, LevelAfter(lv, events), EventAt(es[n], k)[0]);
      }
    }
  }

  lemma {:induction false} EventsProper(es: seq<Step>, k: Key)
    requires forall i :: 0 <= i < |es| && es[i].Book? ==> es[i].size >= 0.0
    ensures forall i :: 0 <= i < |EventsAt(es, k)| ==> Proper(EventsAt(es, k)[i])
    decreases |es|
  {
    if es != [] {
      EventsProper(es[..|es| - 1], k);
    }
  }

  /** Three adapters that differ only in their cancel model, fed the same trades and sizes: for an
      order that joined alone, with no unreported trades, the optimistic one is never further back
      and never behind in fills, and likewise the even one against the pessimistic one. */
  lemma {:induction false} AdaptersBracket(start: State, fs: seq<State>, us: seq<State>, bs: seq<State>,
                                           es: seq<Step>, id: nat, k: Key, qty: real)
    requires LevelAt(start.levels, k).size >= 0.0 && LevelAt(start.levels, k).traded == 0.0 && qty > 0.0
    requires forall i :: 0 <= i < |es| && es[i].Book? ==> es[i].size >= 0.0
    requires Alone(start.orders, id, k.symbol, k.price)
    requires forall i :: 0 <= i < |es| ==> Apart(es[i], id, k)
    requires Trace(Front, fs, es) && Trace(Uniform, us, es) && Trace(Back, bs, es)
    requires fs[0] == us[0] == bs[0] == SubmitStep(start, id, k, qty)
    ensures exists f, u, b ::
      Shows(fs[|es|], id, k, f) && Shows(us[|es|], id, k, u) && Shows(bs[|es|], id, k, b) && Bracketed(f, u, b)
    ensures FilledOf(bs[|es|].fills, id) <= FilledOf(us[|es|].fills, id) <= FilledOf(fs[|es|].fills, id)
  {
    var lv, p, events := LevelAt(start.levels, k), Join(LevelAt(start.levels, k), qty), EventsAt(es, k);
    TraceProjects(Front, fs, es, id, k, p);
    TraceProjects(Uniform, us, es, id, k, p);
    TraceProjects(Back, bs, es, id, k, p);
    EventsProper(es, k);
    StreamKeepsBrackets(p, lv, events);
  }

  // ----- The adapter object

  class QueueAwareBookAdapter {
    const model: Model
    const delayedCancels: bool
    var orders: map<nat, Paper>
    var levels: map<Key, Level>
    var pendingFills: seq<Fill>
    var pendingCancels: map<nat, int>
    var currentTime: int

    function Now(): State
      reads this
    {
      State(orders, levels, pendingFills)
    }

    constructor (model: Model, delayedCancels: bool)
      ensures Now() == State(map[], map[], []) && this.model == model && this.delayedCancels == delayedCancels
    {
      this.model := model;
      this.delayedCancels := delayedCancels;
      orders, levels, pendingFills, pendingCancels, currentTime := map[], map[], [], map[], 0;
    }

    /** `submit_order` for a limit order; other kinds are ignored. */
    method Submit(id: nat, isLimit: bool, k: Key, qty: real)
      modifies this`orders
      ensures Now() == if isLimit then SubmitStep(old(Now()), id, k, qty) else old(Now())
    {
      if !isLimit {
        return;
      }
      var ahead := if k in levels then levels[k].size else 0.0;
      orders := orders[id := Paper(k, Place(ahead, qty, 0.0))];
    }

    /** `poll_fills` */
    method PollFills() returns (out: seq<Fill>)
      modifies this`pendingFills
      ensures out == old(pendingFills) && pendingFills == []
    {
      out := pendingFills;
      pendingFills := [];
    }

    /** `cancel_order`: at once, or after the cancel latency while trades still move the order. */
    method CancelOrder(id: nat, latency: int) returns (found: bool)
      modifies this`orders, this`pendingCancels
      ensures found <==> id in old(orders)
      ensures orders == if delayedCancels then old(orders) else old(orders) - {id}
      ensures pendingCancels ==
              if found && delayedCancels then old(pendingCancels)[id := currentTime + latency] else old(pendingCancels)
    {
      found := id in orders;
      if !found {
        assert orders - {id} == orders;
        return;
      }
      if delayedCancels {
        pendingCancels := pendingCancels[id := currentTime + latency];
      } else {
        orders := orders - {id};
      }
    }

    /** `advance_time`: exactly the orders whose cancel is due are gone. */
    method AdvanceTime(ts: int)
      modifies this`orders, this`pendingCancels, this`currentTime
      ensures currentTime == ts
      ensures var due := Due(old(pendingCancels), ts);
        orders == old(orders) - due && pendingCancels == old(pendingCancels) - due
    {
      currentTime := ts;
      var due := Due(pendingCancels, ts);
      var done := {};
      assert orders - {} == orders && pendingCancels - {} == pendingCancels;
      while done != due
        invariant done <= due && currentTime == ts
        invariant orders == old(orders) - done && pendingCancels == old(pendingCancels) - done
        decreases due - done
      {
        var id :| id in due && id !in done;
        orders := orders - {id};
        pendingCancels := pendingCancels - {id};
        done := done + {id};
      }
    }

    /** `on_l2_update` */
    method OnL2Update(k: Key, size: real)
      modifies this
      ensures Now() == DepthStep(model, old(Now()), k, size)
    {
      var lv := LevelAt(levels, k);
      ghost var goal := DepthStep(model, Now(), k, size);
      if size < lv.size {
        var cancels := Max(0.0, (lv.size - size) - lv.traded);
        if cancels > 0.0 {
          AdvanceAll(k, lv, cancels, size);
        }
      }
      levels := levels[k := Level(size, 0.0)];
      assert orders == goal.orders;
    }

    /** The loop over the orders of a level that shrank by more than its trades. */
    method AdvanceAll(k: Key, lv: Level, cancels: real, ghost size: real)
      requires cancels > 0.0 && cancels == Cancels(lv, size)
      modifies this`orders
      ensures orders == map id | id in old(orders) ::
        if old(orders)[id].key == k then old(orders)[id].(place := Shrunk(model, old(orders)[id].place, lv, size))
        else old(orders)[id]
    {
      var todo := orders.Keys;
      while todo != {}
        invariant todo <= orders.Keys == old(orders).Keys
        invariant forall id :: id in todo ==> orders[id] == old(orders)[id]
        invariant forall id :: id in orders && id !in todo ==>
          orders[id] ==
          if old(orders)[id].key == k then old(orders)[id].(place := Shrunk(model, old(orders)[id].place, lv, size))
          else old(orders)[id]
        decreases |todo|
      {
        var id :| id in todo;
        var o := orders[id];
        if o.key == k {
          orders := orders[id := o.(place := o.place.(ahead := Advance(model, o.place.ahead, lv.size, cancels)))];
        }
        todo := todo - {id};
      }
    }

    /** `on_trade`; the orders are visited in some order, which is returned. */
    method OnTrade(symbol: string, price: int, qty: real, ts: int) returns (ghost ids: seq<nat>)
      modifies this
      ensures Visits(ids, old(orders)) && Now() == TradeStep(old(Now()), ids, symbol, price, qty)
      ensures Next(model, old(Now()), Tape(symbol, price, qty), Now())
    {
      ids := Enumerate(orders);
      if qty <= 0.0 {
        return;
      }
      currentTime := ts;
      ids := VisitAll(symbol, price, qty);
      var b, a := Key(symbol, true, price), Key(symbol, false, price);
      levels := levels[b := NextLevel(LevelAt(levels, b), Trade(qty))];
      levels := levels[a := NextLevel(LevelAt(levels, a), Trade(qty))];
      assert levels == Marked(old(levels), symbol, price, qty);
    }

    method VisitAll(symbol: string, price: int, qty: real) returns (ghost ids: seq<nat>)
      modifies this`orders, this`pendingFills
      ensures Visits(ids, old(orders))
      ensures var t := TradeOver(old(orders), ids, symbol, price, qty);
              orders == t.orders && pendingFills == old(pendingFills) + t.fills
    {
      ids := [];
      var todo, left := orders.Keys, qty;
      ghost var t := TradeOver(orders, [], symbol, price, qty);
      while todo != {}
        invariant t == TradeOver(old(orders), ids, symbol, price, qty)
        invariant orders == t.orders && left == t.left && pendingFills == old(pendingFills) + t.fills
        invariant todo <= orders.Keys && todo <= old(orders).Keys
        invariant forall id :: id in old(orders) ==> (id in ids <==> id !in todo)
        invariant forall id :: id in ids ==> id in old(orders)
        invariant forall i, j :: 0 <= i < j < |ids| ==> ids[i] != ids[j]
        decreases |todo|
      {
        var id :| id in todo;
        assert (ids + [id])[..|ids|] == ids;
        t := Turn(t, id, symbol, price);
        ids := ids + [id];
        left := VisitOne(id, symbol, price, left);
        todo := todo - {id};
      }
    }

    /** One turn of the loop in `on_trade` */
    method VisitOne(id: nat, symbol: string, price: int, left: real) returns (left': real)
      requires id in orders
      modifies this`orders, this`pendingFills
      ensures forall taken: real, fs: seq<Fill> ::
              Turn(Sweep(old(orders), left, taken, fs), id, symbol, price).orders == orders
      ensures forall taken: real, fs: seq<Fill> ::
              Turn(Sweep(old(orders), left, taken, fs), id, symbol, price).left == left'
      ensures var t := Turn(Sweep(old(orders), left, 0.0, []), id, symbol, price);
              pendingFills == old(pendingFills) + t.fills
    {
      left' := left;
      var o := orders[id];
      if !Matches(o, symbol, price) {
        return;
      }
      var p := o.place;
      var consumed := Min(left', p.ahead);
      p := p.(ahead := p.ahead - consumed);
      left' := left' - consumed;
      if p.ahead <= 0.0 && left' > 0.0 {
        var qty := Min(left', p.left);
        pendingFills := pendingFills + [Fill(id, qty, price)];
        p := p.(left := p.left - qty, filled := p.filled + qty);
        left' := left' - qty;
        if p.left <= 0.0 {
          orders := orders - {id};
          return;
        }
      }
      orders := orders[id := o.(place := p)];
    }
  }

  /** The orders whose cancel takes effect by `ts`. */
  ghost function Enumerate(orders: map<nat, Paper>): (ids: seq<nat>)
    ensures Visits(ids, orders) && forall id :: id in ids ==> id in orders
    decreases orders.Keys
  {
    if orders == map[] then []
    else
      var id :| id in orders;
      Enumerate(orders - {id}) + [id]
  }
}
