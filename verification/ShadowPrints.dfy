/** What one print does to the open orders of the shadow adapter, order by order: which it reaches, what
    it takes from their queues and what it fills at its own price.
 */
module ShadowPrints {
  import opened Lots
  import opened Sums
  import opened ShadowTape

  /** A print is for an order of its symbol that was there by then, and that buys at the printed price or
      above or sells at it or below. */
  predicate IsFor(p: Print, o: Open) {
    && o.symbol == p.symbol && o.since <= p.ts
    && (o.market || (o.buy && o.limit >= p.price) || (!o.buy && o.limit <= p.price))
  }

  /** The orders after a print, what it filled (id, quantity and what is left of the order), the orders it
      got through the queue of, and what is left of the print. */
  datatype Outcome = Outcome(orders: seq<Open>, fills: seq<(nat, real, real)>, drained: nat, left: real)

  /** The print goes from order to order: first into the queue ahead, then into the order. It ends where
      a queue takes all of it; orders it fills up are gone. */
  function Served(xs: seq<Open>, p: Print, tape: real): Outcome {
    if xs == [] || tape <= 0.0 then Outcome(xs, [], 0, tape)
    else
      var o := xs[0];
      if !IsFor(p, o) then
        var r := Served(xs[1..], p, tape);
        r.(orders := [o] + r.orders)
      else if o.ahead > 0.0 && o.ahead >= tape then
        Outcome([o.(ahead := o.ahead - tape, consumed := o.consumed + tape)] + xs[1..], [], 0, 0.0)
      else
        var q := Min(o.left, tape - o.ahead);
        var through := o.ahead > 0.0 && o.initial > 0.0 && !o.counted;
        var o' := o.(ahead := 0.0, consumed := o.consumed + o.ahead, left := o.left - q,
                     counted := o.counted || through);
        var r := Served(xs[1..], p, tape - o.ahead - q);
        Outcome((if o'.left <= DUST then [] else [o']) + r.orders, [(o.id, q, o'.left)] + r.fills,
                r.drained + (if through then 1 else 0), r.left)
  }

  /** The fills at price `price`, with the fill ids after `id`. */
  function Numbered(fs: seq<(nat, real, real)>, price: real, id: nat): seq<Fill> {
    if fs == [] then []
    else [Fill(fs[0].0, fs[0].1, price, fs[0].2, id + 1)] + Numbered(fs[1..], price, id + 1)
  }

  /** The state after the orders from `i` on were served. */
  function ServedState(s: State, i: nat, p: Print, tape: real): State
    requires i <= |s.orders|
  {
    var r := Served(s.orders[i..], p, tape);
    State(s.orders[..i] + r.orders, s.fills + Numbered(r.fills, p.price, s.nextFillId), s.submitted,
          s.drained + r.drained, s.nextFillId + |r.fills|)
  }

  lemma {:induction false} ReachesIs(p: Print, o: Open)
    ensures Reaches(o, p) <==> IsFor(p, o)
  {
  }

  /** One order meets a print: the dust test of the code on the queue makes no difference. */
  lemma {:induction false} MeetIs(o: Open, tape: real)
    requires Sound(o) && tape > 0.0
    ensures var m := Meet(o, tape);
      if o.ahead > 0.0 && o.ahead >= tape then
        m == Met(o.(ahead := o.ahead - tape, consumed := o.consumed + tape), 0.0, None, false)
      else
        var q := Min(o.left, tape - o.ahead);
        var through := o.ahead > 0.0 && o.initial > 0.0 && !o.counted;
        m == Met(o.(ahead := 0.0, consumed := o.consumed + o.ahead, left := o.left - q,
                    counted := o.counted || through), tape - o.ahead - q, Some(q), through)
  {
  }

  lemma {:induction false} ServedSplit(s: State, i: nat, p: Print, tape: real)
    requires i < |s.orders|
    ensures s.orders[i..][0] == s.orders[i] && s.orders[i..][1..] == s.orders[i + 1..]
  {
  }

  /** An order the print is not for. */
  lemma {:induction false} PassedBy(s: State, i: nat, p: Print, tape: real)
    requires i < |s.orders| && tape > 0.0 && !IsFor(p, s.orders[i])
    ensures ServedState(s, i, p, tape) == ServedState(s, i + 1, p, tape)
    ensures Visit(s, i, p, tape) == s && Stays(s.orders[i], p, tape) && TapeAfter(s.orders[i], p, tape) == tape
  {
    ReachesIs(p, s.orders[i]);
    ServedSplit(s, i, p, tape);
    var r := Served(s.orders[i + 1..], p, tape);
    assert s.orders[..i + 1] + r.orders == s.orders[..i] + ([s.orders[i]] + r.orders);
  }

  /** An order whose queue takes the rest of the print. */
  lemma {:induction false} Absorbed(s: State, i: nat, p: Print, tape: real)
    requires i < |s.orders| && tape > 0.0 && IsFor(p, s.orders[i]) && Sound(s.orders[i])
    requires s.orders[i].ahead > 0.0 && s.orders[i].ahead >= tape
    ensures ServedState(s, i, p, tape) == Visit(s, i, p, tape) && TapeAfter(s.orders[i], p, tape) == 0.0
  {
    var o := s.orders[i];
    ReachesIs(p, o);
    MeetIs(o, tape);
    ServedSplit(s, i, p, tape);
    var o' := o.(ahead := o.ahead - tape, consumed := o.consumed + tape);
    assert s.orders[..i] + ([o'] + s.orders[i + 1..]) == s.orders[i := o'];
    assert s.fills + [] == s.fills;
  }

  lemma {:induction false} NumberedFirst(f: (nat, real, real), fs: seq<(nat, real, real)>, price: real, id: nat,
                                         before: seq<Fill>)
    ensures before + Numbered([f] + fs, price, id) == before + [Fill(f.0, f.1, price, f.2, id + 1)]
                                                      + Numbered(fs, price, id + 1)
  {
    assert ([f] + fs)[1..] == fs;
  }

  /** An order that is filled, in full or in part. */
  lemma {:induction false} DealtVisit(s: State, i: nat, p: Print, tape: real, m: Met)
    requires i < |s.orders| && tape > 0.0 && IsFor(p, s.orders[i]) && Sound(s.orders[i])
    requires !(s.orders[i].ahead > 0.0 && s.orders[i].ahead >= tape) && m == Meet(s.orders[i], tape)
    ensures m.filled.Some? && m.order.left >= 0.0 && TapeAfter(s.orders[i], p, tape) == m.tape
    ensures Stays(s.orders[i], p, tape) <==> m.order.left > DUST
    ensures Visit(s, i, p, tape) ==
      State(s.orders[..i] + (if m.order.left <= DUST then [] else [m.order]) + s.orders[i + 1..],
            s.fills + [Fill(s.orders[i].id, m.filled.value, p.price, m.order.left, s.nextFillId + 1)],
            s.submitted, s.drained + (if m.drained then 1 else 0), s.nextFillId + 1)
  {
    ReachesIs(p, s.orders[i]);
    MeetIs(s.orders[i], tape);
  }

  lemma {:induction false} DealtServed(xs: seq<Open>, p: Print, tape: real, m: Met)
    requires xs != [] && tape > 0.0 && IsFor(p, xs[0]) && Sound(xs[0])
    requires !(xs[0].ahead > 0.0 && xs[0].ahead >= tape) && m == Meet(xs[0], tape) && m.filled.Some?
    ensures var r := Served(xs[1..], p, m.tape);
      Served(xs, p, tape) ==
        Outcome((if m.order.left <= DUST then [] else [m.order]) + r.orders,
                [(xs[0].id, m.filled.value, m.order.left)] + r.fills, r.drained + (if m.drained then 1 else 0), r.left)
  {
    MeetIs(xs[0], tape);
  }

  lemma {:induction false} Dealt(s: State, i: nat, p: Print, tape: real)
    requires i < |s.orders| && tape > 0.0 && IsFor(p, s.orders[i]) && Sound(s.orders[i])
    requires !(s.orders[i].ahead > 0.0 && s.orders[i].ahead >= tape)
    ensures var s' := Visit(s, i, p, tape);
      var k := if Stays(s.orders[i], p, tape) then i + 1 else i;
      k <= |s'.orders| && s'.orders[k..] == s.orders[i + 1..]
      && ServedState(s, i, p, tape) == ServedState(s', k, p, TapeAfter(s.orders[i], p, tape))
  {
    var o, m := s.orders[i], Meet(s.orders[i], tape);
    DealtVisit(s, i, p, tape, m);
    ServedSplit(s, i, p, tape);
    DealtServed(s.orders[i..], p, tape, m);
    var kept := if m.order.left <= DUST then [] else [m.order];
    SplitAfter(s.orders[..i], kept, s.orders[i + 1..]);
    var r := Served(s.orders[i + 1..], p, m.tape);
    NumberedFirst((o.id, m.filled.value, m.order.left), r.fills, p.price, s.nextFillId, s.fills);
    JoinOrders(s.orders[..i], kept, r.orders);
  }

  lemma {:induction false} SplitAfter(a: seq<Open>, x: seq<Open>, rest: seq<Open>)
    ensures (a + x + rest)[..|a| + |x|] == a + x && (a + x + rest)[|a| + |x|..] == rest
  {
  }

  lemma {:induction false} JoinOrders(a: seq<Open>, x: seq<Open>, rest: seq<Open>)
    ensures a + x + rest == a + (x + rest)
  {
  }

  /** The loop over the open orders serves them one after the other. */
  lemma {:induction false} WalkIsServed(s: State, i: nat, p: Print, tape: real)
    requires AllSound(s.orders) && i <= |s.orders| && tape >= 0.0
    ensures Walk(s, i, p, tape) == ServedState(s, i, p, tape)
    decreases |s.orders| - i
  {
    if i == |s.orders| || tape <= 0.0 {
      assert s.orders[..i] + s.orders[i..] == s.orders && s.fills + [] == s.fills;
    } else {
      var o := s.orders[i];
      if !IsFor(p, o) {
        PassedBy(s, i, p, tape);
        WalkIsServed(s, i + 1, p, tape);
      } else {
        var s', k, rest := Visit(s, i, p, tape), if Stays(o, p, tape) then i + 1 else i, TapeAfter(o, p, tape);
        VisitSound(s, i, p, tape);
        if o.ahead > 0.0 && o.ahead >= tape {
          Absorbed(s, i, p, tape);
        } else {
          Dealt(s, i, p, tape);
          WalkIsServed(s', k, p, rest);
        }
      }
    }
  }

  /** A fill of an order that the print is for: no more than the order had, and the rest stays open
      unless it is dust. */
  predicate FillFits(f: (nat, real, real), xs: seq<Open>, p: Print) {
    exists i :: 0 <= i < |xs| && IsFor(p, xs[i]) && xs[i].id == f.0 && 0.0 <= f.1 <= xs[i].left
                && f.2 == xs[i].left - f.1
  }

  lemma {:induction false} FillFitsMore(f: (nat, real, real), o: Open, xs: seq<Open>, p: Print)
    requires FillFits(f, xs, p)
    ensures FillFits(f, [o] + xs, p)
  {
    var i :| 0 <= i < |xs| && IsFor(p, xs[i]) && xs[i].id == f.0 && 0.0 <= f.1 <= xs[i].left && f.2 == xs[i].left - f.1;
    assert ([o] + xs)[i + 1] == xs[i];
  }

  lemma {:induction false} ServedFits(xs: seq<Open>, p: Print, tape: real)
    requires AllSound(xs) && tape >= 0.0
    ensures var r := Served(xs, p, tape);
      && (forall k :: 0 <= k < |r.fills| ==> FillFits(r.fills[k], xs, p))
      && r.left >= 0.0
      && (r.left > 0.0 ==> forall k :: 0 <= k < |r.orders| ==> !IsFor(p, r.orders[k]))
  {
    if xs != [] && tape > 0.0 {
      var o, rest := xs[0], xs[1..];
      assert xs == [o] + rest && Sound(o);
      if !IsFor(p, o) || !(o.ahead > 0.0 && o.ahead >= tape) {
        var tape' := if IsFor(p, o) then tape - o.ahead - Min(o.left, tape - o.ahead) else tape;
        var r := Served(rest, p, tape');
        ServedFits(rest, p, tape');
        forall k | 0 <= k < |r.fills|
          ensures FillFits(r.fills[k], xs, p)
        {
          FillFitsMore(r.fills[k], o, rest, p);
        }
      }
    }
  }

  lemma {:induction false} NumberedAt(fs: seq<(nat, real, real)>, price: real, id: nat, k: nat)
    requires k < |fs|
    ensures |Numbered(fs, price, id)| == |fs|
    ensures Numbered(fs, price, id)[k] == Fill(fs[k].0, fs[k].1, price, fs[k].2, id + 1 + k)
  {
    if |fs| > 1 {
      NumberedAt(fs[1..], price, id + 1, if k > 0 then k - 1 else 0);
    } else {
      assert Numbered(fs[1..], price, id + 1) == [];
    }
  }

  /** A print adds fills at its own price, for orders of its symbol that were there by then and whose
      limit it is within, and for no more than they had open. If something of it is left over, none of
      the orders still open is one it is for. A print without quantity or price does nothing. */
  lemma {:induction false} PrintIsServed(s: State, p: Print)
    requires AllSound(s.orders)
    ensures p.qty <= 0.0 || p.price <= 0.0 ==> OnPrint(s, p) == s
    ensures p.qty > 0.0 && p.price > 0.0 ==> Serves(s, OnPrint(s, p), p)
  {
    if p.qty > 0.0 && p.price > 0.0 {
      PrintServes(s, p);
    }
  }

  /** From `s` to `s'` print `p` was served. */
  ghost predicate Serves(s: State, s': State, p: Print) {
    var r := Served(s.orders, p, p.qty);
    && s'.orders == r.orders && |s'.fills| == |s.fills| + |r.fills| && s'.drained == s.drained + r.drained
    && (forall k :: 0 <= k < |s.fills| ==> s'.fills[k] == s.fills[k])
    && (forall k :: 0 <= k < |r.fills| ==>
          && s'.fills[|s.fills| + k] == Fill(r.fills[k].0, r.fills[k].1, p.price, r.fills[k].2, s.nextFillId + 1 + k)
          && FillFits(r.fills[k], s.orders, p))
    && (r.left > 0.0 ==> forall k :: 0 <= k < |s'.orders| ==> !IsFor(p, s'.orders[k]))
  }

  lemma {:induction false} PrintServes(s: State, p: Print)
    requires AllSound(s.orders) && p.qty > 0.0 && p.price > 0.0
    ensures Serves(s, OnPrint(s, p), p)
  {
    WalkIsServed(s, 0, p, p.qty);
    ServedFits(s.orders, p, p.qty);
    assert s.orders[0..] == s.orders && s.orders[..0] == [];
    var r := Served(s.orders, p, p.qty);
    assert [] + r.orders == r.orders;
    forall k | 0 <= k < |r.fills|
      ensures |Numbered(r.fills, p.price, s.nextFillId)| == |r.fills|
      ensures Numbered(r.fills, p.price, s.nextFillId)[k]
              == Fill(r.fills[k].0, r.fills[k].1, p.price, r.fills[k].2, s.nextFillId + 1 + k)
    {
      NumberedAt(r.fills, p.price, s.nextFillId, k);
    }
  }

  // ----- Submitting and withdrawing

  /** A submission that starts behind a queue: a limit order, with a queue model that sees one. */
  function BehindQueue(): Action -> bool {
    (a: Action) => a.Send? && !a.o.market && a.queue.Some? && a.queue.value > 0.0
  }

  lemma {:induction false} CountLast(actions: seq<Action>, f: Action -> bool)
    requires actions != []
    ensures var n := |actions| - 1; Count(actions, f) == Count(actions[..n], f) + (if f(actions[n]) then 1 else 0)
  {
    var n := |actions| - 1;
    assert actions == actions[..n] + [actions[n]] && [actions[n]][1..] == [];
    CountConcat(actions[..n], [actions[n]], f);
  }

  lemma {:induction false} PrintKeepsSubmitted(s: State, p: Print)
    requires AllSound(s.orders)
    ensures OnPrint(s, p).submitted == s.submitted
  {
    if p.qty > 0.0 && p.price > 0.0 {
      WalkIsServed(s, 0, p, p.qty);
    }
  }

  /** Over every run, the orders counted as submitted with a queue are those that were. */
  lemma {:induction false} RunCountsSubmitted(actions: seq<Action>)
    requires forall i :: 0 <= i < |actions| ==> Proper(actions[i])
    ensures Run(actions).submitted == Count(actions, BehindQueue())
    decreases |actions|
  {
    if actions != [] {
      var n := |actions| - 1;
      RunCountsSubmitted(actions[..n]);
      RunSound(actions[..n]);
      CountLast(actions, BehindQueue());
      if actions[n].Tape? {
        PrintKeepsSubmitted(Run(actions[..n]), actions[n].p);
      }
    }
  }

  /** A submitted order is last, as it was sent, with its queue all ahead of it. */
  lemma {:induction false} SentIsLast(s: State, o: Open, queue: Option<real>)
    ensures var xs := Step(s, Send(o, queue)).orders;
      var behind := if queue.Some? && !o.market then queue.value else 0.0;
      && xs == s.orders + [o.(ahead := behind, initial := behind, consumed := 0.0, counted := false)]
      && Step(s, Send(o, queue)).fills == s.fills
  {
  }

  lemma {:induction false} WithoutId(xs: seq<Open>, id: nat)
    ensures forall i :: 0 <= i < |Without(xs, id)| ==> Without(xs, id)[i].id != id
  {
    if xs != [] {
      WithoutId(xs[1..], id);
    }
  }

  lemma {:induction false} WithoutKeeps(xs: seq<Open>, id: nat, x: Open)
    requires x.id != id
    ensures multiset(Without(xs, id))[x] == multiset(xs)[x]
  {
    if xs != [] {
      WithoutKeeps(xs[1..], id, x);
      assert xs == [xs[0]] + xs[1..];
    }
  }

  /** A cancel takes out every order with its id and no other. */
  lemma {:induction false} PulledIsGone(s: State, id: nat, x: Open)
    ensures var s' := Step(s, Pull(id));
      && s' == s.(orders := s'.orders)
      && (forall i :: 0 <= i < |s'.orders| ==> s'.orders[i].id != id)
      && (x.id != id ==> multiset(s'.orders)[x] == multiset(s.orders)[x])
  {
    WithoutId(s.orders, id);
    if x.id != id {
      WithoutKeeps(s.orders, id, x);
    }
  }

  /** A change of an order keeps its place among the orders and in its queue. */
  lemma {:induction false} AmendedInPlace(s: State, id: nat, limit: real, qty: real, i: nat)
    requires i < |s.orders|
    ensures var xs := Step(s, Amend(id, limit, qty)).orders;
      && |xs| == |s.orders|
      && xs[i] == if s.orders[i].id == id && (forall j :: 0 <= j < i ==> s.orders[j].id != id)
                  then s.orders[i].(limit := limit, left := qty) else s.orders[i]
  {
    if j :| 0 <= j < |s.orders| && s.orders[j].id == id {
      var k := FirstWith(s.orders, id);
      ModifyAt(s.orders, k, id, limit, qty);
    } else {
      ModifyNone(s.orders, id, limit, qty);
    }
  }

  lemma {:induction false} FirstWith(xs: seq<Open>, id: nat) returns (k: nat)
    requires exists j :: 0 <= j < |xs| && xs[j].id == id
    ensures k < |xs| && xs[k].id == id && forall j :: 0 <= j < k ==> xs[j].id != id
  {
    if xs[0].id == id {
      k := 0;
    } else {
      var j :| 0 <= j < |xs| && xs[j].id == id;
      assert xs[1..][j - 1].id == id;
      k := FirstWith(xs[1..], id);
      k := k + 1;
    }
  }

  // ----- The statistics

  /** What is counted as blocked: orders with something of their queue still ahead. */
  lemma {:induction false} BlockedIff(o: Open)
    requires Sound(o) && o.consumed >= 0.0
    ensures StillBlocked()(o) <==> o.ahead > 0.0
  {
  }

  /** An order that got through its queue was counted. */
  predicate Noted(o: Open) {
    o.initial > 0.0 && o.ahead == 0.0 ==> o.counted
  }

  /** A fill after a queue is counted exactly when something of the queue was still ahead of the order
      when the print came. */
  lemma {:induction false} FirstFillCountedIff(o: Open, tape: real)
    requires Sound(o) && tape > 0.0 && o.initial > 0.0 && !o.counted && Meet(o, tape).filled.Some?
    ensures Meet(o, tape).drained <==> o.ahead > 0.0
  {
    MeetIs(o, tape);
  }

  /** As long as every order that got through its queue was counted, a print counts all that get through
      on it: drained plus waiting orders stay the same. */
  lemma {:induction false} PrintTally(xs: seq<Open>, p: Print, tape: real)
    requires AllSound(xs) && tape >= 0.0 && forall i :: 0 <= i < |xs| ==> Noted(xs[i])
    ensures var r := Served(xs, p, tape); r.drained + Count(r.orders, Waiting()) == Count(xs, Waiting())
  {
    if xs != [] && tape > 0.0 {
      var o, rest := xs[0], xs[1..];
      assert Sound(o) && Noted(o) && xs == [o] + rest;
      CountFirst(o, rest);
      if !IsFor(p, o) {
        PrintTally(rest, p, tape);
        CountFirst(o, Served(rest, p, tape).orders);
      } else if o.ahead > 0.0 && o.ahead >= tape {
        CountFirst(o.(ahead := o.ahead - tape, consumed := o.consumed + tape), rest);
      } else {
        var m := Meet(o, tape);
        MeetIs(o, tape);
        PrintTally(rest, p, m.tape);
        DealtServed(xs, p, tape, m);
        MetTally(o, tape, Served(rest, p, m.tape).orders);
      }
    }
  }

  /** An order that a print fills is no longer waiting, and counts if it was. */
  lemma {:induction false} MetTally(o: Open, tape: real, rest: seq<Open>)
    requires Sound(o) && Noted(o) && tape > 0.0 && !(o.ahead > 0.0 && o.ahead >= tape)
    ensures var m := Meet(o, tape);
      Count((if m.order.left <= DUST then [] else [m.order]) + rest, Waiting()) == Count(rest, Waiting())
      && ((if m.drained then 1 else 0) == if Waiting()(o) then 1 else 0)
  {
    MeetIs(o, tape);
    var m := Meet(o, tape);
    assert !Waiting()(m.order);
    if m.order.left <= DUST {
      assert [] + rest == rest;
    } else {
      CountFirst(m.order, rest);
    }
  }

  lemma {:induction false} CountFirst(o: Open, xs: seq<Open>)
    ensures Count([o] + xs, Waiting()) == Count(xs, Waiting()) + (if Waiting()(o) then 1 else 0)
  {
    CountConcat([o], xs, Waiting());
    CountOne(o);
  }

  /** An order for 1 behind a queue of 5: a print of 5 takes exactly the queue, the next print of 1 fills
      the order, and it is never counted as filled after its queue drained. */
  lemma {:induction false} DrainUncounted()
    ensures var o := Open(1, "X", true, false, 100.0, 1.0, 0.0, 0.0, 0.0, false, 0);
      var s := Run([Send(o, Some(5.0)), Tape(Print("X", 100.0, 5.0, 1)), Tape(Print("X", 100.0, 1.0, 2))]);
      s.submitted == 1 && s.fills == [Fill(1, 1.0, 100.0, 0.0, 1)] && s.orders == [] && s.drained == 0
  {
    var o := Open(1, "X", true, false, 100.0, 1.0, 0.0, 0.0, 0.0, false, 0);
    var p, q := Print("X", 100.0, 5.0, 1), Print("X", 100.0, 1.0, 2);
    DrainedThenFilled(o, 5.0, p, q);
  }

  /** Any order whose queue one print takes exactly and which the next fills. */
  lemma {:induction false} DrainedThenFilled(o: Open, queue: real, p: Print, q: Print)
    requires !o.market && o.left > 0.0 && IsFor(p, o) && IsFor(q, o)
    requires p.qty == queue > 0.0 && q.qty == o.left && p.price > 0.0 && q.price > 0.0
    ensures Run([Send(o, Some(queue)), Tape(p), Tape(q)]) == State([], [Fill(o.id, q.qty, q.price, 0.0, 1)], 1, 0, 1)
  {
    RunThree(Send(o, Some(queue)), Tape(p), Tape(q));
    var o1 := o.(ahead := queue, initial := queue, consumed := 0.0, counted := false);
    assert Step(START, Send(o, Some(queue))) == State([o1], [], 1, 0, 0);
    QueueGoes(o1, p);
    OrderGoes(o1.(ahead := 0.0, consumed := 0.0 + p.qty), q);
  }

  lemma {:induction false} RunThree(a: Action, b: Action, c: Action)
    ensures Run([a, b, c]) == Step(Step(Step(START, a), b), c)
  {
    assert [a, b, c][..2] == [a, b] && [a, b][..1] == [a] && [a][..0] == [];
    assert Run([a]) == Step(Run([]), a);
  }

  lemma {:induction false} QueueGoes(o: Open, p: Print)
    requires Sound(o) && IsFor(p, o) && o.ahead == p.qty > 0.0 && p.price > 0.0
    ensures OnPrint(State([o], [], 1, 0, 0), p)
         == State([o.(ahead := 0.0, consumed := o.consumed + p.qty)], [], 1, 0, 0)
  {
    var s := State([o], [], 1, 0, 0);
    WalkIsServed(s, 0, p, p.qty);
    assert s.orders[0..] == [o] && [o][1..] == [];
  }

  lemma {:induction false} OrderGoes(o: Open, p: Print)
    requires Sound(o) && IsFor(p, o) && o.ahead == 0.0 && o.left == p.qty > 0.0 && p.price > 0.0
    ensures OnPrint(State([o], [], 1, 0, 0), p) == State([], [Fill(o.id, p.qty, p.price, 0.0, 1)], 1, 0, 1)
  {
    var s := State([o], [], 1, 0, 0);
    WalkIsServed(s, 0, p, p.qty);
    assert s.orders[0..] == [o] && [o][1..] == [];
    assert Served([], p, 0.0) == Outcome([], [], 0, 0.0);
    NumberedAt([(o.id, p.qty, 0.0)], p.price, 0, 0);
  }
}
