/** Runs of the exit manager that show what it does not promise: a manual close that makes the
    manager's own fill disarm a sibling, and shares beyond one that close more than was opened.
 */
module ExitCounterexamples {
  import opened Lots
  import opened Sums
  import opened ExitRules
  import opened ExitModel
  import opened ExitSafety

  lemma {:induction false} RunMore(adapter: bool, actions: seq<Action>, a: Action)
    ensures Run(adapter, actions + [a]) == Step(Run(adapter, actions), adapter, a)
  {
    assert (actions + [a])[..|actions|] == actions;
  }

  // ----- A stolen fill

  /** Half of opener 1, closed at a target. */
  function HalfAt(target: real): Intent {
    Intent(1, "s", "x", true, 0.5, None, Some(target), None, None, None)
  }

  /** Two halves are armed by a fill of 2, and the first one fires. */
  const FIRST_FIRES: seq<Action> :=
    [Add(HalfAt(110.0))] + [Add(HalfAt(120.0))] + [Opened(1, 2.0, 100.0, None)] + [Market(Tick("x", 110.0, 0))]

  lemma {:induction false} BothArmed(adapter: bool)
    ensures var s := Run(adapter, [Add(HalfAt(110.0))] + [Add(HalfAt(120.0))] + [Opened(1, 2.0, 100.0, None)]);
      && s.armed == [Armed(HalfAt(110.0), 1.0, 100.0, 100.0, 0), Armed(HalfAt(120.0), 1.0, 100.0, 100.0, 1)]
      && s.remaining == map[1 := 2.0] && s.inFlight == map[]
  {
    var i, j := HalfAt(110.0), HalfAt(120.0);
    RunMore(adapter, [], Add(i));
    RunMore(adapter, [Add(i)], Add(j));
    assert [] + [Add(i)] == [Add(i)];
    var s := Run(adapter, [Add(i)] + [Add(j)]);
    assert s.pending == [i, j] && s.armed == [] && s.remaining == map[] && s.inFlight == map[] && s.nextTag == 0;
    assert [i, j][1..] == [j] && [j][1..] == [];
    assert PendingFor([j], 1) == [j] && PendingFor([i, j], 1) == [i, j];
    assert ArmAll([j], 2.0, 100.0, 1) == [Armed(j, 1.0, 100.0, 100.0, 1)];
    assert ArmAll([i, j], 2.0, 100.0, 0) == [Armed(i, 1.0, 100.0, 100.0, 0), Armed(j, 1.0, 100.0, 100.0, 1)];
    RunMore(adapter, [Add(i)] + [Add(j)], Opened(1, 2.0, 100.0, None));
  }

  /** Part of what remains is closed while another intent stays armed. */
  lemma {:induction false} FiresInPart(s: State, adapter: bool, a: Armed, left: real, price: real)
    requires |s.armed| == 2 && s.armed[1].intent.opener == a.intent.opener && a.qty > 0.0 && left >= DUST
    requires s.remaining == map[a.intent.opener := a.qty + left] && s.inFlight == map[]
    ensures var s', o := Fired(s, adapter, 0, a, price), a.intent.opener;
      s'.armed == [s.armed[1]] && s'.remaining == map[o := left] && s'.inFlight == map[o := a.qty]
  {
    var o := a.intent.opener;
    assert RemoveAt(s.armed, 0) == [s.armed[1]] && [s.armed[1]][0].intent.opener == o;
    assert Granted(s.remaining, o, a.qty) == a.qty && Consumed(s.remaining, o, a.qty) == map[o := left];
  }

  lemma {:induction false} FirstFires(adapter: bool, s: State)
    requires s.armed == [Armed(HalfAt(110.0), 1.0, 100.0, 100.0, 0), Armed(HalfAt(120.0), 1.0, 100.0, 100.0, 1)]
    requires s.remaining == map[1 := 2.0] && s.inFlight == map[]
    ensures var s' := Step(s, adapter, Market(Tick("x", 110.0, 0)));
      && s'.armed == [Armed(HalfAt(120.0), 1.0, 100.0, 110.0, 1)]
      && s'.remaining == map[1 := 1.0] && s'.inFlight == map[1 := 1.0]
  {
    var t, a := Tick("x", 110.0, 0), Armed(HalfAt(110.0), 1.0, 100.0, 110.0, 0);
    assert Judge(s.armed[0], t) == Fire(a, 110.0);
    var s1 := Visit(s, adapter, 0, t);
    FiresInPart(s, adapter, a, 1.0, 110.0);
    assert Scan(s, adapter, 0, t) == Scan(s1, adapter, 0, t);
    LastKept(adapter, s1, t, Armed(HalfAt(120.0), 1.0, 100.0, 110.0, 1));
  }

  lemma {:induction false} LastKept(adapter: bool, s: State, t: Trigger, b: Armed)
    requires |s.armed| == 1 && s.armed[0].intent.symbol == t.symbol && Judge(s.armed[0], t) == Keep(b)
    ensures Scan(s, adapter, 0, t) == s.(armed := [b])
  {
    assert s.armed[0 := b] == [b];
  }

  lemma {:induction false} SecondFillDisarms(adapter: bool, s: State)
    requires s.armed == [Armed(HalfAt(120.0), 1.0, 100.0, 110.0, 1)]
    requires s.remaining == map[1 := 1.0] && s.inFlight == map[1 := 1.0]
    ensures var s1 := Step(s, adapter, Closed(1, 1.0, false));
      s1.armed == s.armed && Step(s1, adapter, Closed(1, 1.0, true)).armed == []
  {
    var s1 := Step(s, adapter, Closed(1, 1.0, false));
    assert s1 == Settle(s, 1, 1.0, false) && s1.inFlight == map[];
    assert s.armed[1..] == [] && ArmedWithout(s.armed, 1) == [];
  }

  /** A manual close of the size of the manager's own close leaves the sibling armed, and the fill of
      the manager's own close then disarms it. */
  lemma {:induction false} StolenFillRun(adapter: bool)
    ensures IsArmed(Run(adapter, FIRST_FIRES + [Closed(1, 1.0, false)]).armed, 1)
    ensures !IsArmed(Run(adapter, FIRST_FIRES + [Closed(1, 1.0, false)] + [Closed(1, 1.0, true)]).armed, 1)
  {
    var opening := [Add(HalfAt(110.0))] + [Add(HalfAt(120.0))] + [Opened(1, 2.0, 100.0, None)];
    BothArmed(adapter);
    FirstFires(adapter, Run(adapter, opening));
    RunMore(adapter, opening, Market(Tick("x", 110.0, 0)));
    SecondFillDisarms(adapter, Run(adapter, FIRST_FIRES));
    RunMore(adapter, FIRST_FIRES, Closed(1, 1.0, false));
    RunMore(adapter, FIRST_FIRES + [Closed(1, 1.0, false)], Closed(1, 1.0, true));
    assert Run(adapter, FIRST_FIRES).armed[0].intent.opener == 1;
  }

  // ----- Shares beyond one

  /** An intent of opener `o` that the first tick closes. */
  function Due(o: nat, fraction: real): Intent {
    Intent(o, "s", "x", true, fraction, None, None, None, None, Some(0))
  }

  function DueAll(o: nat, fs: seq<real>): seq<Intent> {
    seq(|fs|, i requires 0 <= i < |fs| => Due(o, fs[i]))
  }

  function Adds(ps: seq<Intent>): seq<Action> {
    seq(|ps|, i requires 0 <= i < |ps| => Add(ps[i]))
  }

  /** Registers an intent for each share, fills the opener and lets one tick close them all. */
  function Cascade(o: nat, fs: seq<real>, qty: real): seq<Action> {
    Opening(o, fs, qty) + [Market(Tick("x", 1.0, 0))]
  }

  /** A share of a fill. */
  function Portion(qty: real, f: real): real {
    qty * Clamp(f)
  }

  function PortionOf(qty: real): real -> real {
    (f: real) => Portion(qty, f)
  }

  function Share(): real -> real {
    (f: real) => Clamp(f)
  }

  lemma {:induction false} AfterAdds(adapter: bool, ps: seq<Intent>)
    requires forall i :: 0 <= i < |ps| ==> ps[i].opener != 0
    ensures var s := Run(adapter, Adds(ps));
      && s.pending == ps && s.armed == [] && s.remaining == map[] && s.inFlight == map[] && s.handles == map[]
      && s.nextTag == 0 && s.log == START.log.(registered := ps)
    decreases |ps|
  {
    if ps != [] {
      var n := |ps| - 1;
      AfterAdds(adapter, ps[..n]);
      assert Adds(ps) == Adds(ps[..n]) + [Add(ps[n])];
      RunMore(adapter, Adds(ps[..n]), Add(ps[n]));
    }
  }

  lemma {:induction false} AllPending(ps: seq<Intent>, o: nat)
    requires forall i :: 0 <= i < |ps| ==> ps[i].opener == o
    ensures PendingFor(ps, o) == ps
  {
    if ps != [] {
      AllPending(ps[1..], o);
    }
  }

  /** Armed intents of opener `o` with the shares `fs` of a fill of `qty`, all due. */
  predicate DueArmed(xs: seq<Armed>, o: nat, fs: seq<real>, qty: real) {
    && |xs| == |fs|
    && forall i :: 0 <= i < |xs| ==> xs[i].intent == Due(o, fs[i]) && xs[i].qty == Portion(qty, fs[i])
  }

  lemma {:induction false} ArmedDue(o: nat, fs: seq<real>, qty: real, tag: nat)
    ensures DueArmed(ArmAll(DueAll(o, fs), qty, 1.0, tag), o, fs, qty)
  {
    if fs != [] {
      ArmedDue(o, fs[1..], qty, tag + 1);
      assert DueAll(o, fs)[1..] == DueAll(o, fs[1..]);
    }
  }

  lemma {:induction false} ProductPositive(a: real, b: real)
    requires a > 0.0 && b > 0.0
    ensures a * b > 0.0
  {
  }

  lemma {:induction false} PortionAmount(qty: real, f: real)
    requires qty > 0.0
    ensures 0.0 < Portion(qty, f) <= qty
  {
    var c := Clamp(f);
    ProductPositive(qty, c);
    if c < 1.0 {
      ProductPositive(qty, 1.0 - c);
      Spread(qty, c, 1.0 - c);
    }
  }

  lemma {:induction false} PortionSum(qty: real, fs: seq<real>)
    ensures Sum(fs, PortionOf(qty)) == qty * Sum(fs, Share())
  {
    if fs != [] {
      PortionSum(qty, fs[1..]);
      Spread(qty, Clamp(fs[0]), Sum(fs[1..], Share()));
    }
  }

  lemma {:induction false} Spread(a: real, x: real, y: real)
    ensures a * (x + y) == a * x + a * y
  {
  }

  /** What is left of the opener is taken up to dust, or there is no entry, which grants everything. */
  predicate Takes(remaining: map<nat, real>, o: nat, x: real) {
    remaining == map[] || (o in remaining && remaining == map[o := remaining[o]] && 0.0 <= remaining[o] - x < DUST)
  }

  /** An intent that fires as `a` closes all it asks for and leaves no entry. */
  lemma {:induction false} FiresInFull(s: State, adapter: bool, a: Armed)
    requires s.armed != [] && a.qty > 0.0 && Takes(s.remaining, a.intent.opener, a.qty)
    ensures var s', o := Fired(s, adapter, 0, a, 1.0), a.intent.opener;
      && s'.armed == s.armed[1..] && s'.remaining == map[]
      && s'.log.closes == s.log.closes + [Close(o, a.qty, 1.0)]
      && s'.log.fills == s.log.fills && s'.log.registered == s.log.registered
  {
    var o := a.intent.opener;
    assert Granted(s.remaining, o, a.qty) == a.qty;
    assert RemoveAt(s.armed, 0) == s.armed[1..];
    if s.remaining == map[] {
      assert Consumed(s.remaining, o, a.qty) == map[];
    } else {
      assert Consumed(s.remaining, o, a.qty) == map[o := 0.0];
    }
    assert Consumed(s.remaining, o, a.qty) - {o} == map[];
  }

  /** The first due intent fires on the tick. */
  lemma {:induction false} DueFires(s: State, adapter: bool, o: nat, fs: seq<real>, qty: real)
    requires fs != [] && DueArmed(s.armed, o, fs, qty)
    requires Portion(qty, fs[0]) > 0.0 && Takes(s.remaining, o, Portion(qty, fs[0]))
    ensures var s' := Visit(s, adapter, 0, Tick("x", 1.0, 0));
      && Scan(s, adapter, 0, Tick("x", 1.0, 0)) == Scan(s', adapter, 0, Tick("x", 1.0, 0))
      && s'.armed == s.armed[1..] && s'.remaining == map[]
      && s'.log.closes == s.log.closes + [Close(o, Portion(qty, fs[0]), 1.0)]
      && s'.log.fills == s.log.fills && s'.log.registered == s.log.registered
  {
    var t := Tick("x", 1.0, 0);
    var a := Judge(s.armed[0], t).armed;
    assert Judge(s.armed[0], t) == Fire(a, 1.0) && a.intent == Due(o, fs[0]) && a.qty == s.armed[0].qty;
    FiresInFull(s, adapter, a);
  }

  lemma {:induction false} AllFire(s: State, adapter: bool, o: nat, fs: seq<real>, qty: real)
    requires DueArmed(s.armed, o, fs, qty) && qty > 0.0
    requires fs != [] ==> Takes(s.remaining, o, Portion(qty, fs[0]))
    ensures var s' := Scan(s, adapter, 0, Tick("x", 1.0, 0));
      && s'.log.fills == s.log.fills && s'.log.registered == s.log.registered
      && Sum(s'.log.closes, CloseQty(o)) == Sum(s.log.closes, CloseQty(o)) + Sum(fs, PortionOf(qty))
    decreases |fs|
  {
    if fs != [] {
      PortionAmount(qty, fs[0]);
      DueFires(s, adapter, o, fs, qty);
      SumAppend(s.log.closes, Close(o, Portion(qty, fs[0]), 1.0), CloseQty(o));
      AllFire(Visit(s, adapter, 0, Tick("x", 1.0, 0)), adapter, o, fs[1..], qty);
    }
  }

  /** The run up to the tick. */
  function Opening(o: nat, fs: seq<real>, qty: real): seq<Action> {
    Adds(DueAll(o, fs)) + [Opened(o, qty, 1.0, None)]
  }

  lemma {:induction false} FirstFill(s: State, adapter: bool, o: nat, qty: real)
    requires s.armed == [] && s.remaining == map[] && s.nextTag == 0 && s.log.fills == []
    requires s.pending != [] && forall i :: 0 <= i < |s.pending| ==> s.pending[i].opener == o
    ensures var s' := OpenerFill(s, adapter, o, qty, 1.0, None);
      && s'.armed == ArmAll(s.pending, qty, 1.0, 0) && s'.remaining == map[o := qty]
      && s'.log == s.log.(fills := [Filled(o, qty)])
  {
    AllPending(s.pending, o);
    assert [] + ArmAll(s.pending, qty, 1.0, 0) == ArmAll(s.pending, qty, 1.0, 0);
  }

  lemma {:induction false} AfterOpening(adapter: bool, o: nat, fs: seq<real>, qty: real)
    requires o != 0 && fs != []
    ensures var s := Run(adapter, Opening(o, fs, qty));
      && DueArmed(s.armed, o, fs, qty) && s.remaining == map[o := qty]
      && s.log == START.log.(registered := DueAll(o, fs), fills := [Filled(o, qty)])
  {
    var ps := DueAll(o, fs);
    AfterAdds(adapter, ps);
    FirstFill(Run(adapter, Adds(ps)), adapter, o, qty);
    ArmedDue(o, fs, qty, 0);
    RunMore(adapter, Adds(ps), Opened(o, qty, 1.0, None));
  }

  /** A cascade closes every share in full once the first one leaves only dust of the opener. */
  lemma {:induction false} CascadeCloses(adapter: bool, o: nat, fs: seq<real>, qty: real)
    requires o != 0 && fs != [] && qty > 0.0 && qty - Portion(qty, fs[0]) < DUST
    ensures var s := Run(adapter, Cascade(o, fs, qty));
      && s.log.registered == DueAll(o, fs) && s.log.fills == [Filled(o, qty)]
      && Sum(s.log.closes, CloseQty(o)) == Sum(fs, PortionOf(qty))
  {
    AfterOpening(adapter, o, fs, qty);
    PortionAmount(qty, fs[0]);
    AllFire(Run(adapter, Opening(o, fs, qty)), adapter, o, fs, qty);
    RunMore(adapter, Opening(o, fs, qty), Market(Tick("x", 1.0, 0)));
  }

  /** Two intents that each close all of an opener filled for 2 close 4 on one tick. */
  lemma {:induction false} ClosesTwice(adapter: bool)
    ensures var log := Run(adapter, Cascade(1, [1.0, 1.0], 2.0)).log;
      log.fills == [Filled(1, 2.0)] && Sum(log.closes, CloseQty(1)) == 4.0
  {
    CascadeCloses(adapter, 1, [1.0, 1.0], 2.0);
    SumAppend([1.0], 1.0, PortionOf(2.0));
    SumOne(1.0, PortionOf(2.0));
    assert [1.0] + [1.0] == [1.0, 1.0];
  }

  // ----- Exactly the shares that never close too much

  /** The shares registered for an opener. */
  function SharesOf(ps: seq<Intent>, o: nat): seq<real> {
    if ps == [] then [] else (if ps[0].opener == o then [ps[0].fraction] else []) + SharesOf(ps[1..], o)
  }

  lemma {:induction false} SharesSum(ps: seq<Intent>, o: nat)
    ensures Sum(SharesOf(ps, o), Share()) == Sum(ps, Frac(o))
  {
    if ps != [] {
      SharesSum(ps[1..], o);
      SumConcat(if ps[0].opener == o then [ps[0].fraction] else [], SharesOf(ps[1..], o), Share());
      SumOne(ps[0].fraction, Share());
    }
  }

  lemma {:induction false} SharesOfDue(o: nat, fs: seq<real>)
    ensures SharesOf(DueAll(o, fs), o) == fs
  {
    if fs != [] {
      SharesOfDue(o, fs[1..]);
      assert DueAll(o, fs)[1..] == DueAll(o, fs[1..]);
    }
  }

  ghost predicate AllPositive(actions: seq<Action>) {
    forall i :: 0 <= i < |actions| ==> Positive(actions[i])
  }

  ghost predicate ClosesWithin(adapter: bool, actions: seq<Action>, o: nat) {
    var log := Run(adapter, actions).log;
    Sum(log.closes, CloseQty(o)) <= Sum(log.fills, FillQty(o))
  }

  /** No run that registers the shares `fs` for an opener closes more of it than was filled. */
  ghost predicate NeverTooMuch(adapter: bool, o: nat, fs: seq<real>) {
    forall actions :: AllPositive(actions) && SharesOf(Run(adapter, actions).log.registered, o) == fs ==>
      ClosesWithin(adapter, actions, o)
  }

  lemma {:induction false} CascadePositive(o: nat, fs: seq<real>, qty: real)
    requires qty > 0.0
    ensures AllPositive(Cascade(o, fs, qty))
  {
  }

  lemma {:induction false} CascadeBeyond(adapter: bool, o: nat, fs: seq<real>)
    requires o != 0 && Sum(fs, Share()) > 1.0
    ensures var log := Run(adapter, Cascade(o, fs, DUST)).log;
      log.registered == DueAll(o, fs) && Sum(log.closes, CloseQty(o)) > Sum(log.fills, FillQty(o))
  {
    PortionAmount(DUST, fs[0]);
    CascadeCloses(adapter, o, fs, DUST);
    PortionSum(DUST, fs);
    SumOne(Filled(o, DUST), FillQty(o));
  }

  lemma {:induction false} BeyondOneClosesTooMuch(adapter: bool, o: nat, fs: seq<real>)
    requires o != 0 && Sum(fs, Share()) > 1.0
    ensures !NeverTooMuch(adapter, o, fs)
  {
    CascadePositive(o, fs, DUST);
    CascadeBeyond(adapter, o, fs);
    SharesOfDue(o, fs);
    assert !ClosesWithin(adapter, Cascade(o, fs, DUST), o);
  }

  /** The shares of an opener never close more than was filled, whatever the run, exactly when they
      sum to at most one. */
  lemma {:induction false} NeverTooMuchIff(adapter: bool, o: nat, fs: seq<real>)
    requires o != 0
    ensures NeverTooMuch(adapter, o, fs) <==> Sum(fs, Share()) <= 1.0
  {
    if Sum(fs, Share()) > 1.0 {
      BeyondOneClosesTooMuch(adapter, o, fs);
    } else {
      forall actions | AllPositive(actions) && SharesOf(Run(adapter, actions).log.registered, o) == fs
        ensures ClosesWithin(adapter, actions, o)
      {
        SharesSum(Run(adapter, actions).log.registered, o);
        NeverOverCloses(adapter, actions, o);
      }
    }
  }
}
