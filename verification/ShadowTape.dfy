/** The shadow adapter that fills open orders from the live trade tape, after the queue ahead of
    them has been traded away.
 */
module ShadowTape {
  import opened Latency
  import opened Lots
  import opened Sums

  datatype Option<T> = None | Some(value: T)

  /** An order on the tape: what is left of it, the queue ahead of it when it arrived, what is still
      ahead and what was consumed, and whether its drain was counted. */
  datatype Open = Open(id: nat, symbol: string, buy: bool, market: bool, limit: real, left: real,
                       ahead: real, initial: real, consumed: real, counted: bool, since: int)

  datatype Fill = Fill(id: nat, qty: real, price: real, remaining: real, fillId: nat)

  datatype Print = Print(symbol: string, price: real, qty: real, ts: int)

  datatype State = State(orders: seq<Open>, fills: seq<Fill>, submitted: nat, drained: nat, nextFillId: nat)

  const START := State([], [], 0, 0, 0)

  function Min(a: real, b: real): real {
    if a <= b then a else b
  }

  /** Whether a print is for an order: its symbol, not before it arrived, and at its limit or better. */
  predicate Reaches(o: Open, p: Print) {
    && o.symbol == p.symbol && p.ts >= o.since
    && (o.market || if o.buy then p.price <= o.limit else p.price >= o.limit)
  }

  // ----- One order meets what is left of a print

  /** The queue ahead goes first. */
  function Drain(o: Open, tape: real): Open {
    var eaten := Min(o.ahead, tape);
    o.(ahead := o.ahead - eaten, consumed := o.consumed + eaten)
  }

  function AfterQueue(o: Open, tape: real): real {
    tape - Min(o.ahead, tape)
  }

  /** Whether the order is still behind its queue, or nothing of the print is left. */
  predicate Blocked(o: Open, tape: real) {
    o.ahead > 0.0 && (Drain(o, tape).ahead > DUST || AfterQueue(o, tape) <= 0.0)
  }

  /** An order and the print after they met; `filled` is what the order got, if anything. */
  datatype Met = Met(order: Open, tape: real, filled: Option<real>, drained: bool)

  function Meet(o: Open, tape: real): Met {
    if o.ahead > 0.0 then
      if Blocked(o, tape) then Met(Drain(o, tape), AfterQueue(o, tape), None, false)
      else
        var counts := o.initial > 0.0 && !o.counted;
        FillFrom(Drain(o, tape).(counted := o.counted || counts), AfterQueue(o, tape), counts)
    else FillFrom(o, tape, false)
  }

  function FillFrom(o: Open, tape: real, drained: bool): Met {
    var qty := Min(o.left, tape);
    Met(o.(left := o.left - qty), tape - qty, Some(qty), drained)
  }

  /** The print at the order at `i`. */
  function Visit(s: State, i: nat, p: Print, tape: real): State
    requires i < |s.orders|
  {
    var o := s.orders[i];
    if !Reaches(o, p) then s
    else
      var m := Meet(o, tape);
      var s' := s.(drained := if m.drained then s.drained + 1 else s.drained);
      if m.filled.None? then s'.(orders := s.orders[i := m.order])
      else
        s'.(orders := if m.order.left <= DUST then s.orders[..i] + s.orders[i + 1..] else s.orders[i := m.order],
            fills := s.fills + [Fill(o.id, m.filled.value, p.price,
                                     if m.order.left >= 0.0 then m.order.left else 0.0, s.nextFillId + 1)],
            nextFillId := s.nextFillId + 1)
  }

  function TapeAfter(o: Open, p: Print, tape: real): real {
    if Reaches(o, p) then Meet(o, tape).tape else tape
  }

  predicate Stays(o: Open, p: Print, tape: real) {
    !Reaches(o, p) || Meet(o, tape).filled.None? || Meet(o, tape).order.left > DUST
  }

  /** The loop over the open orders, until the print is used up. */
  function Walk(s: State, i: nat, p: Print, tape: real): State
    decreases |s.orders| - i
  {
    if i >= |s.orders| || tape <= 0.0 then s
    else
      var o := s.orders[i];
      Walk(Visit(s, i, p, tape), if Stays(o, p, tape) then i + 1 else i, p, TapeAfter(o, p, tape))
  }

  function OnPrint(s: State, p: Print): State {
    if p.qty > 0.0 && p.price > 0.0 then Walk(s, 0, p, p.qty) else s
  }

  // ----- Other operations

  /** `queue` is the queue ahead as the queue model sees it, for limit orders. */
  function Submit(s: State, o: Open, queue: Option<real>): State {
    var q := if queue.Some? && !o.market then queue.value else 0.0;
    s.(orders := s.orders + [o.(ahead := q, initial := q, consumed := 0.0, counted := false)],
       submitted := if q > 0.0 then s.submitted + 1 else s.submitted)
  }

  function Without(xs: seq<Open>, id: nat): seq<Open> {
    if xs == [] then [] else (if xs[0].id == id then [] else [xs[0]]) + Without(xs[1..], id)
  }

  function Excluding(xs: seq<Open>, ids: set<nat>): seq<Open> {
    if xs == [] then [] else (if xs[0].id in ids then [] else [xs[0]]) + Excluding(xs[1..], ids)
  }

  lemma {:induction false} ExcludingOne(xs: seq<Open>, ids: set<nat>, id: nat)
    ensures Without(Excluding(xs, ids), id) == Excluding(xs, ids + {id})
  {
    if xs != [] {
      ExcludingOne(xs[1..], ids, id);
      if xs[0].id !in ids {
        var rest := Excluding(xs[1..], ids);
        assert ([xs[0]] + rest)[0] == xs[0] && ([xs[0]] + rest)[1..] == rest;
        assert Without([xs[0]] + rest, id) == (if xs[0].id == id then [] else [xs[0]]) + Without(rest, id);
      } else {
        assert [] + Excluding(xs[1..], ids) == Excluding(xs[1..], ids);
      }
    }
  }

  lemma {:induction false} ExcludingNone(xs: seq<Open>)
    ensures Excluding(xs, {}) == xs
  {
    if xs != [] {
      ExcludingNone(xs[1..]);
    }
  }

  function Modify(xs: seq<Open>, id: nat, limit: real, qty: real): seq<Open> {
    if xs == [] then []
    else if xs[0].id == id then [xs[0].(limit := limit, left := qty)] + xs[1..]
    else [xs[0]] + Modify(xs[1..], id, limit, qty)
  }

  // ----- One print

  /** The queue an order started behind is what is still ahead plus what was consumed. */
  predicate Sound(o: Open) {
    && o.initial == o.ahead + o.consumed && o.ahead >= 0.0 && o.left >= 0.0
    && (o.counted ==> o.ahead == 0.0 && o.initial > 0.0)
  }

  /** What an order got out of a meeting with a print. */
  function Got(m: Met): real {
    if m.filled.Some? then m.filled.value else 0.0
  }

  /** Queue consumption and fill come out of the print, and an order fills only with an empty queue. */
  lemma {:induction false} MeetSound(o: Open, tape: real)
    requires Sound(o) && tape > 0.0
    ensures var m := Meet(o, tape);
      && Sound(m.order) && m.order.initial == o.initial && m.tape >= 0.0 && Got(m) >= 0.0
      && (m.order.consumed - o.consumed) + Got(m) == tape - m.tape
      && m.order.consumed >= o.consumed
      && (m.filled.Some? ==> m.order.ahead == 0.0)
      && (m.drained ==> !o.counted && m.order.counted && o.initial > 0.0)
      && (!m.drained ==> m.order.counted == o.counted)
  {
  }

  predicate AllSound(xs: seq<Open>) {
    forall i :: 0 <= i < |xs| ==> Sound(xs[i])
  }

  /** A print over the open orders: what it took from queues, what it filled, what is left of it. */
  datatype Account = Account(eaten: real, filled: real, left: real)

  /** What a print takes from the queue of an order it comes to, and what it fills of it. */
  function Took(o: Open, p: Print, tape: real): real {
    if Reaches(o, p) then Meet(o, tape).order.consumed - o.consumed else 0.0
  }

  function Gave(o: Open, p: Print, tape: real): real {
    if Reaches(o, p) then Got(Meet(o, tape)) else 0.0
  }

  function WalkAccount(s: State, i: nat, p: Print, tape: real, eaten: real, filled: real): Account
    decreases |s.orders| - i
  {
    if i >= |s.orders| || tape <= 0.0 then Account(eaten, filled, tape)
    else
      var o := s.orders[i];
      WalkAccount(Visit(s, i, p, tape), if Stays(o, p, tape) then i + 1 else i, p, TapeAfter(o, p, tape),
                  eaten + Took(o, p, tape), filled + Gave(o, p, tape))
  }

  function FillQty(): Fill -> real {
    (f: Fill) => f.qty
  }

  lemma {:induction false} VisitSound(s: State, i: nat, p: Print, tape: real)
    requires AllSound(s.orders) && i < |s.orders| && tape > 0.0
    ensures AllSound(Visit(s, i, p, tape).orders)
    ensures Sum(Visit(s, i, p, tape).fills, FillQty()) == Sum(s.fills, FillQty()) + Gave(s.orders[i], p, tape)
    ensures var o := s.orders[i];
      && Took(o, p, tape) >= 0.0 && TapeAfter(o, p, tape) >= 0.0
      && Took(o, p, tape) + Gave(o, p, tape) == tape - TapeAfter(o, p, tape)
    ensures |Visit(s, i, p, tape).orders| == if Stays(s.orders[i], p, tape) then |s.orders| else |s.orders| - 1
  {
    var o := s.orders[i];
    if Reaches(o, p) {
      var m := Meet(o, tape);
      MeetSound(o, tape);
      if m.filled.Some? {
        SumAppend(s.fills, Fill(o.id, m.filled.value, p.price, if m.order.left >= 0.0 then m.order.left else 0.0,
                                s.nextFillId + 1), FillQty());
      }
    }
  }

  /** From `s` to `s'` a print with `tape` left went to queues and fills as the account says, on top of
      what it had eaten and filled before. */
  predicate Balances(s: State, s': State, acc: Account, tape: real, eaten: real, filled: real) {
    && AllSound(s'.orders) && acc.left >= 0.0 && acc.eaten >= eaten
    && acc.eaten + acc.filled + acc.left == eaten + filled + tape
    && Sum(s'.fills, FillQty()) - Sum(s.fills, FillQty()) == acc.filled - filled
  }

  lemma {:induction false} BalancesOn(s: State, mid: State, s': State, acc: Account, tape: real, tape': real,
                                      took: real, got: real, eaten: real, filled: real)
    requires Balances(mid, s', acc, tape', eaten + took, filled + got)
    requires took >= 0.0 && took + got == tape - tape' && Sum(mid.fills, FillQty()) == Sum(s.fills, FillQty()) + got
    ensures Balances(s, s', acc, tape, eaten, filled)
  {
  }

  /** What a print takes from queues and what it fills never add up to more than was printed, and
      the fills are the ones the adapter queues. */
  lemma {:induction false} WalkConserves(s: State, i: nat, p: Print, tape: real, eaten: real, filled: real)
    requires AllSound(s.orders) && tape >= 0.0
    ensures Balances(s, Walk(s, i, p, tape), WalkAccount(s, i, p, tape, eaten, filled), tape, eaten, filled)
    decreases |s.orders| - i
  {
    if i < |s.orders| && tape > 0.0 {
      var o := s.orders[i];
      var s', k, rest := Visit(s, i, p, tape), if Stays(o, p, tape) then i + 1 else i, TapeAfter(o, p, tape);
      var took, gave := Took(o, p, tape), Gave(o, p, tape);
      VisitSound(s, i, p, tape);
      WalkConserves(s', k, p, rest, eaten + took, filled + gave);
      BalancesOn(s, s', Walk(s', k, p, rest), WalkAccount(s', k, p, rest, eaten + took, filled + gave),
                 tape, rest, took, gave, eaten, filled);
    }
  }

  lemma {:induction false} PrintConserves(s: State, p: Print)
    requires AllSound(s.orders) && p.qty > 0.0
    ensures var acc, s' := WalkAccount(s, 0, p, p.qty, 0.0, 0.0), Walk(s, 0, p, p.qty);
      acc.eaten >= 0.0 && acc.eaten + (Sum(s'.fills, FillQty()) - Sum(s.fills, FillQty())) <= p.qty
  {
    WalkConserves(s, 0, p, p.qty, 0.0, 0.0);
  }

  // ----- Queue statistics

  /** An order that arrived behind a queue and whose drain was not counted yet. */
  function Waiting(): Open -> bool {
    (o: Open) => o.initial > 0.0 && !o.counted
  }

  /** What `get_queue_stats` counts as blocked. */
  function StillBlocked(): Open -> bool {
    (o: Open) => o.initial > 0.0 && o.ahead > 0.0
  }

  predicate Tallied(s: State) {
    s.drained + Count(s.orders, Waiting()) <= s.submitted
  }

  lemma {:induction false} VisitTallied(s: State, i: nat, p: Print, tape: real)
    requires AllSound(s.orders) && Tallied(s) && i < |s.orders| && tape > 0.0
    ensures Tallied(Visit(s, i, p, tape))
  {
    var o := s.orders[i];
    if Reaches(o, p) {
      MeetSound(o, tape);
      CountUpdate(s.orders, i, Meet(o, tape).order, Waiting());
      CountRemove(s.orders, i, Waiting());
    }
  }

  lemma {:induction false} WalkTallied(s: State, i: nat, p: Print, tape: real)
    requires AllSound(s.orders) && Tallied(s) && tape >= 0.0
    ensures Tallied(Walk(s, i, p, tape))
    decreases |s.orders| - i
  {
    if i < |s.orders| && tape > 0.0 {
      var o := s.orders[i];
      VisitSound(s, i, p, tape);
      VisitTallied(s, i, p, tape);
      MeetSound(o, tape);
      WalkTallied(Visit(s, i, p, tape), if Stays(o, p, tape) then i + 1 else i, p, TapeAfter(o, p, tape));
    }
  }

  lemma {:induction false} WithoutSound(xs: seq<Open>, id: nat)
    requires AllSound(xs)
    ensures AllSound(Without(xs, id)) && Count(Without(xs, id), Waiting()) <= Count(xs, Waiting())
  {
    if xs != [] {
      WithoutSound(xs[1..], id);
      CountConcat(if xs[0].id == id then [] else [xs[0]], Without(xs[1..], id), Waiting());
      CountOne(xs[0]);
    }
  }

  lemma {:induction false} ExcludingSound(xs: seq<Open>, ids: set<nat>)
    requires AllSound(xs)
    ensures AllSound(Excluding(xs, ids)) && Count(Excluding(xs, ids), Waiting()) <= Count(xs, Waiting())
  {
    if xs != [] {
      ExcludingSound(xs[1..], ids);
      CountConcat(if xs[0].id in ids then [] else [xs[0]], Excluding(xs[1..], ids), Waiting());
      CountOne(xs[0]);
    }
  }

  lemma {:induction false} CountOne(o: Open)
    ensures Count([o], Waiting()) == if Waiting()(o) then 1 else 0
  {
    assert [o][1..] == [];
  }

  lemma {:induction false} ModifySound(xs: seq<Open>, id: nat, limit: real, qty: real)
    requires AllSound(xs) && qty >= 0.0
    ensures AllSound(Modify(xs, id, limit, qty)) && Count(Modify(xs, id, limit, qty), Waiting()) == Count(xs, Waiting())
  {
    if xs != [] {
      if xs[0].id == id {
        var o := xs[0].(limit := limit, left := qty);
        CountConcat([o], xs[1..], Waiting());
        CountOne(o);
      } else {
        ModifySound(xs[1..], id, limit, qty);
        CountConcat([xs[0]], Modify(xs[1..], id, limit, qty), Waiting());
        CountOne(xs[0]);
      }
    }
  }

  // ----- Runs

  datatype Action =
    | Send(o: Open, queue: Option<real>)
    | Tape(p: Print)
    | Pull(id: nat)
    | Amend(id: nat, limit: real, qty: real)

  /** Quantities and queues are not negative. */
  predicate Proper(a: Action) {
    match a
    case Send(o, queue) => o.left >= 0.0 && (queue.Some? ==> queue.value >= 0.0)
    case Amend(_, _, qty) => qty >= 0.0
    case _ => true
  }

  function Step(s: State, a: Action): State {
    match a
    case Send(o, queue) => Submit(s, o, queue)
    case Tape(p) => OnPrint(s, p)
    case Pull(id) => s.(orders := Without(s.orders, id))
    case Amend(id, limit, qty) => s.(orders := Modify(s.orders, id, limit, qty))
  }

  function Run(actions: seq<Action>): State
    decreases |actions|
  {
    if actions == [] then START else Step(Run(actions[..|actions| - 1]), actions[|actions| - 1])
  }

  lemma {:induction false} StepSound(s: State, a: Action)
    requires AllSound(s.orders) && Tallied(s) && Proper(a)
    ensures AllSound(Step(s, a).orders) && Tallied(Step(s, a))
  {
    match a
    case Send(o, queue) =>
      var s' := Submit(s, o, queue);
      CountConcat(s.orders, [s'.orders[|s.orders|]], Waiting());
      CountOne(s'.orders[|s.orders|]);
    case Tape(p) =>
      if p.qty > 0.0 {
        WalkConserves(s, 0, p, p.qty, 0.0, 0.0);
        WalkTallied(s, 0, p, p.qty);
      }
    case Pull(id) => WithoutSound(s.orders, id);
    case Amend(id, limit, qty) => ModifySound(s.orders, id, limit, qty);
  }

  /** Over every run each order keeps its queue accounted for, and the orders that filled after a
      drain and those still blocked are no more than those that arrived behind a queue. */
  lemma {:induction false} RunSound(actions: seq<Action>)
    requires forall i :: 0 <= i < |actions| ==> Proper(actions[i])
    ensures var s := Run(actions);
      AllSound(s.orders) && Tallied(s) && s.drained + Count(s.orders, StillBlocked()) <= s.submitted
    decreases |actions|
  {
    if actions != [] {
      RunSound(actions[..|actions| - 1]);
      StepSound(Run(actions[..|actions| - 1]), actions[|actions| - 1]);
    }
    CountImplies(Run(actions).orders, StillBlocked(), Waiting());
  }

  // ----- The adapter object

  class TradeTapeShadowAdapter {
    const delayed: bool
    var openOrders: seq<Open>
    var pendingFills: seq<Fill>
    var submittedWithQueue: nat
    var filledAfterDrain: nat
    var nextFillId: nat
    var pendingCancels: map<nat, int>
    var currentTime: int

    function Now(): State
      reads this
    {
      State(openOrders, pendingFills, submittedWithQueue, filledAfterDrain, nextFillId)
    }

    constructor (delayed: bool)
      ensures Now() == START && this.delayed == delayed
    {
      this.delayed := delayed;
      openOrders, pendingFills, submittedWithQueue, filledAfterDrain, nextFillId := [], [], 0, 0, 0;
      pendingCancels, currentTime := map[], 0;
    }

    /** `submit_order` */
    method SubmitOrder(o: Open, queue: Option<real>)
      modifies this
      ensures Now() == Submit(old(Now()), o, queue)
    {
      var oo := o.(ahead := 0.0, initial := 0.0, consumed := 0.0, counted := false);
      if queue.Some? && !o.market {
        oo := oo.(ahead := queue.value, initial := queue.value);
        if oo.ahead > 0.0 {
          submittedWithQueue := submittedWithQueue + 1;
        }
      }
      openOrders := openOrders + [oo];
    }

    /** What a print does to the order at `i`, up to its fill: the queue ahead is consumed, and its
        drain counted once. */
    method DrainAt(i: nat, tape: real) returns (tape': real, blocked: bool)
      requires i < |openOrders|
      modifies this`openOrders, this`filledAfterDrain
      ensures var o, m := old(openOrders)[i], Meet(old(openOrders)[i], tape);
        && blocked == m.filled.None?
        && filledAfterDrain == old(filledAfterDrain) + (if m.drained then 1 else 0)
        && (blocked ==> openOrders == old(openOrders)[i := m.order] && tape' == m.tape)
        && (!blocked ==> |openOrders| == |old(openOrders)| && openOrders == old(openOrders)[i := openOrders[i]]
                         && Meet(o, tape) == FillFrom(openOrders[i], tape', m.drained))
    {
      var o := openOrders[i];
      tape', blocked := tape, false;
      if o.ahead > 0.0 {
        var eaten := Min(o.ahead, tape);
        o := o.(ahead := o.ahead - eaten, consumed := o.consumed + eaten);
        tape' := tape - eaten;
        blocked := o.ahead > DUST || tape' <= 0.0;
        if !blocked && o.initial > 0.0 && !o.counted {
          filledAfterDrain := filledAfterDrain + 1;
          o := o.(counted := true);
        }
      }
      openOrders := openOrders[i := o];
    }

    /** One turn of the loop in `on_trade` */
    method VisitAt(i: nat, p: Print, tape: real) returns (tape': real, kept: bool)
      requires i < |openOrders|
      modifies this
      ensures Now() == Visit(old(Now()), i, p, tape)
      ensures tape' == TapeAfter(old(openOrders)[i], p, tape) && kept == Stays(old(openOrders)[i], p, tape)
    {
      tape', kept := tape, true;
      if !Reaches(openOrders[i], p) {
        return;
      }
      var blocked;
      tape', blocked := DrainAt(i, tape);
      if blocked {
        return;
      }
      var o := openOrders[i];
      var qty := Min(o.left, tape');
      o := o.(left := o.left - qty);
      tape' := tape' - qty;
      nextFillId := nextFillId + 1;
      pendingFills := pendingFills + [Fill(o.id, qty, p.price, if o.left >= 0.0 then o.left else 0.0, nextFillId)];
      kept := o.left > DUST;
      if kept {
        openOrders := openOrders[i := o];
      } else {
        openOrders := openOrders[..i] + openOrders[i + 1..];
      }
    }

    /** `on_trade` */
    method OnTrade(p: Print)
      modifies this
      ensures Now() == OnPrint(old(Now()), p)
    {
      if p.qty <= 0.0 || p.price <= 0.0 {
        return;
      }
      var i, tape := 0, p.qty;
      while i < |openOrders| && tape > 0.0
        invariant 0 <= i <= |openOrders|
        invariant Walk(Now(), i, p, tape) == Walk(old(Now()), 0, p, p.qty)
        decreases |openOrders| - i
      {
        var kept;
        tape, kept := VisitAt(i, p, tape);
        if kept {
          i := i + 1;
        }
      }
    }

    /** `get_queue_stats` */
    method BlockedCount() returns (n: nat)
      ensures n == Count(openOrders, StillBlocked())
    {
      n := 0;
      for i := 0 to |openOrders|
        invariant n == Count(openOrders[..i], StillBlocked())
      {
        assert openOrders[..i + 1] == openOrders[..i] + [openOrders[i]];
        CountConcat(openOrders[..i], [openOrders[i]], StillBlocked());
        if openOrders[i].initial > 0.0 && openOrders[i].ahead > 0.0 {
          n := n + 1;
        }
      }
      assert openOrders[..|openOrders|] == openOrders;
    }

    /** The orders with an id are taken out, the others keep their order. */
    method Remove(id: nat) returns (found: bool)
      modifies this`openOrders
      ensures openOrders == Without(old(openOrders), id)
      ensures found <==> exists i :: 0 <= i < |old(openOrders)| && old(openOrders)[i].id == id
    {
      var kept: seq<Open> := [];
      found := false;
      for i := 0 to |openOrders|
        invariant openOrders == old(openOrders) && kept == Without(openOrders[..i], id)
        invariant found <==> exists j :: 0 <= j < i && openOrders[j].id == id
      {
        assert openOrders[..i + 1] == openOrders[..i] + [openOrders[i]];
        WithoutMore(openOrders[..i], openOrders[i], id);
        if openOrders[i].id == id {
          found := true;
        } else {
          kept := kept + [openOrders[i]];
        }
      }
      assert openOrders[..|openOrders|] == openOrders;
      openOrders := kept;
    }

    /** `cancel_order`: at once, or after the cancel latency. */
    method CancelOrder(id: nat, latency: int) returns (found: bool)
      modifies this`openOrders, this`pendingCancels
      ensures found <==> exists i :: 0 <= i < |old(openOrders)| && old(openOrders)[i].id == id
      ensures openOrders == if delayed then old(openOrders) else Without(old(openOrders), id)
      ensures pendingCancels ==
              if found && delayed then old(pendingCancels)[id := currentTime + latency] else old(pendingCancels)
    {
      if delayed {
        found := exists i :: 0 <= i < |openOrders| && openOrders[i].id == id;
        if found {
          pendingCancels := pendingCancels[id := currentTime + latency];
        }
      } else {
        found := Remove(id);
      }
    }

    /** `advance_time`: the orders whose cancel is due are gone, and no others. */
    method AdvanceTime(ts: int)
      modifies this`openOrders, this`pendingCancels, this`currentTime
      ensures currentTime == ts
      ensures var due := Due(old(pendingCancels), ts);
        openOrders == Excluding(old(openOrders), due) && pendingCancels == old(pendingCancels) - due
    {
      currentTime := ts;
      var due := Due(pendingCancels, ts);
      var done := {};
      ExcludingNone(openOrders);
      assert pendingCancels - {} == pendingCancels;
      while done != due
        invariant done <= due && currentTime == ts
        invariant openOrders == Excluding(old(openOrders), done) && pendingCancels == old(pendingCancels) - done
        decreases due - done
      {
        var id :| id in due && id !in done;
        ExcludingOne(old(openOrders), done, id);
        var found := Remove(id);
        pendingCancels := pendingCancels - {id};
        done := done + {id};
      }
    }

    /** `modify_order` */
    method ModifyOrder(id: nat, limit: real, qty: real) returns (found: bool)
      modifies this`openOrders
      ensures openOrders == Modify(old(openOrders), id, limit, qty)
      ensures found <==> exists i :: 0 <= i < |old(openOrders)| && old(openOrders)[i].id == id
    {
      var i := 0;
      while i < |openOrders|
        invariant 0 <= i <= |openOrders| && openOrders == old(openOrders)
        invariant forall j :: 0 <= j < i ==> openOrders[j].id != id
      {
        if openOrders[i].id == id {
          ModifyAt(openOrders, i, id, limit, qty);
          openOrders := openOrders[i := openOrders[i].(limit := limit, left := qty)];
          return true;
        }
        i := i + 1;
      }
      ModifyNone(openOrders, id, limit, qty);
      found := false;
    }

    // ----- Runs

    /** `poll_fills` */
    method PollFills() returns (out: seq<Fill>)
      modifies this`pendingFills
      ensures out == old(pendingFills) && pendingFills == []
    {
      out := pendingFills;
      pendingFills := [];
    }

    /** One call keeps every queue accounted for and the statistics in bound. */
    method Do(c: Call)
      requires AllSound(openOrders) && Tallied(Now()) && ProperCall(c)
      modifies this
      ensures AllSound(openOrders) && Tallied(Now())
    {
      match c {
        case Submits(o, queue) =>
          StepSound(Now(), Send(o, queue));
          SubmitOrder(o, queue);
        case Prints(p) =>
          StepSound(Now(), Tape(p));
          OnTrade(p);
        case Polls =>
          var out := PollFills();
        case Cancels(id, latency) =>
          StepSound(Now(), Pull(id));
          var found := CancelOrder(id, latency);
        case Ticks(ts) =>
          ExcludingSound(openOrders, Due(pendingCancels, ts));
          AdvanceTime(ts);
        case Modifies(id, limit, qty) =>
          StepSound(Now(), Amend(id, limit, qty));
          var found := ModifyOrder(id, limit, qty);
      }
    }

    /** Over every run of the object, cancels after a latency included. */
    method Run(calls: seq<Call>) returns (blocked: nat)
      requires Now() == START && forall i :: 0 <= i < |calls| ==> ProperCall(calls[i])
      modifies this
      ensures AllSound(openOrders) && blocked == Count(openOrders, StillBlocked())
      ensures filledAfterDrain + blocked <= submittedWithQueue
    {
      for i := 0 to |calls|
        invariant AllSound(openOrders) && Tallied(Now())
      {
        Do(calls[i]);
      }
      blocked := BlockedCount();
      CountImplies(openOrders, StillBlocked(), Waiting());
    }
  }

  /** A call of the object. */
  datatype Call =
    | Submits(o: Open, queue: Option<real>)
    | Prints(p: Print)
    | Polls
    | Cancels(id: nat, latency: int)
    | Ticks(ts: int)
    | Modifies(id: nat, limit: real, qty: real)

  predicate ProperCall(c: Call) {
    match c
    case Submits(o, queue) => Proper(Send(o, queue))
    case Modifies(id, limit, qty) => Proper(Amend(id, limit, qty))
    case _ => true
  }

  lemma {:induction false} WithoutMore(xs: seq<Open>, x: Open, id: nat)
    ensures Without(xs + [x], id) == Without(xs, id) + if x.id == id then [] else [x]
  {
    if xs == [] {
      assert xs + [x] == [x] && [x][1..] == [];
    } else {
      assert (xs + [x])[1..] == xs[1..] + [x];
      WithoutMore(xs[1..], x, id);
    }
  }

  lemma {:induction false} ModifyAt(xs: seq<Open>, i: nat, id: nat, limit: real, qty: real)
    requires i < |xs| && xs[i].id == id && forall j :: 0 <= j < i ==> xs[j].id != id
    ensures Modify(xs, id, limit, qty) == xs[i := xs[i].(limit := limit, left := qty)]
  {
    if i > 0 {
      ModifyAt(xs[1..], i - 1, id, limit, qty);
    }
  }

  lemma {:induction false} ModifyNone(xs: seq<Open>, id: nat, limit: real, qty: real)
    requires forall j :: 0 <= j < |xs| ==> xs[j].id != id
    ensures Modify(xs, id, limit, qty) == xs
  {
    if xs != [] {
      ModifyNone(xs[1..], id, limit, qty);
    }
  }
}
