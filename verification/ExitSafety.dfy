/** What every run of the exit manager keeps. */
module ExitSafety {
  import opened Lots
  import opened Sums
  import opened ExitRules
  import opened ExitModel

  datatype Action =
    | Add(i: Intent)
    | Opened(opener: nat, qty: real, price: real, placed: Option<nat>)
    | Closed(opener: nat, qty: real, own: bool)
    | Market(t: Trigger)
    | CancelOne(opener: nat)
    | CancelFor(strategy: string, symbol: string)
    | Recover(i: Intent, qty: real, entry: real, bracket: Option<nat>)
    | Shuffle(pending: seq<Intent>, armed: seq<Armed>, index: seq<Key>)

  function Step(s: State, adapter: bool, a: Action): State {
    match a
    case Add(i) => Register(s, i)
    case Opened(o, qty, price, placed) => OpenerFill(s, adapter, o, qty, price, placed)
    case Closed(o, qty, own) => CloserFill(s, adapter, o, qty, own)
    case Market(t) => OnTrigger(s, adapter, t)
    case CancelOne(o) => Cancel(s, adapter, o)
    case CancelFor(strategy, symbol) => CancelBulk(s, adapter, strategy, symbol)
    case Recover(i, qty, entry, bracket) => Rehydrate(s, i, qty, entry, bracket)
    case Shuffle(pending, armed, index) => Rehash(s, pending, armed, index)
  }

  function Run(adapter: bool, actions: seq<Action>): State
    decreases |actions|
  {
    if actions == [] then START else Step(Run(adapter, actions[..|actions| - 1]), adapter, actions[|actions| - 1])
  }

  /** Fills have a positive quantity. */
  predicate Positive(a: Action) {
    a.Opened? || a.Closed? || a.Recover? ==> a.qty > 0.0
  }

  // ----- Sums per opener

  function Frac(o: nat): Intent -> real {
    (i: Intent) => if i.opener == o then Clamp(i.fraction) else 0.0
  }

  function ArmedFrac(o: nat): Armed -> real {
    (a: Armed) => if a.intent.opener == o then Clamp(a.intent.fraction) else 0.0
  }

  function ArmedQty(o: nat): Armed -> real {
    (a: Armed) => if a.intent.opener == o then a.qty else 0.0
  }

  function FillQty(o: nat): Filled -> real {
    (f: Filled) => if f.opener == o then f.qty else 0.0
  }

  function CloseQty(o: nat): Close -> real {
    (c: Close) => if c.opener == o then c.qty else 0.0
  }

  /** A share of a quantity. */
  function Cap(f: real, qty: real): real {
    f * qty
  }

  lemma {:induction false} CapAdd(f: real, g: real, x: real, y: real)
    ensures Cap(f, x + y) == Cap(f, x) + Cap(f, y) && Cap(f + g, x) == Cap(f, x) + Cap(g, x)
  {
  }

  lemma {:induction false} CapMono(f: real, x: real, y: real)
    requires f >= 0.0 && x <= y
    ensures Cap(f, x) <= Cap(f, y) && (x >= 0.0 ==> Cap(f, x) >= 0.0)
  {
  }

  lemma {:induction false} WithoutFrac(ps: seq<Intent>, o: nat, p: nat)
    ensures Sum(PendingWithout(ps, o), Frac(p)) == if p == o then 0.0 else Sum(ps, Frac(p))
    ensures Sum(PendingFor(ps, o), Frac(p)) == if p == o then Sum(ps, Frac(p)) else 0.0
  {
    if ps != [] {
      WithoutFrac(ps[1..], o, p);
      var kept := if ps[0].opener == o then [] else [ps[0]];
      var found := if ps[0].opener == o then [ps[0]] else [];
      SumConcat(kept, PendingWithout(ps[1..], o), Frac(p));
      SumConcat(found, PendingFor(ps[1..], o), Frac(p));
      SumOne(ps[0], Frac(p));
    }
  }

  lemma {:induction false} ArmedWithoutSums(xs: seq<Armed>, o: nat, p: nat)
    ensures Sum(ArmedWithout(xs, o), ArmedFrac(p)) == if p == o then 0.0 else Sum(xs, ArmedFrac(p))
    ensures Sum(ArmedWithout(xs, o), ArmedQty(p)) == if p == o then 0.0 else Sum(xs, ArmedQty(p))
  {
    if xs != [] {
      ArmedWithoutSums(xs[1..], o, p);
      var kept := if xs[0].intent.opener == o then [] else [xs[0]];
      SumConcat(kept, ArmedWithout(xs[1..], o), ArmedFrac(p));
      SumConcat(kept, ArmedWithout(xs[1..], o), ArmedQty(p));
      SumOne(xs[0], ArmedFrac(p));
      SumOne(xs[0], ArmedQty(p));
    }
  }

  lemma {:induction false} ArmedWithoutMember(xs: seq<Armed>, o: nat)
    ensures forall i :: 0 <= i < |ArmedWithout(xs, o)| ==>
              ArmedWithout(xs, o)[i] in xs && ArmedWithout(xs, o)[i].intent.opener != o
    ensures forall i :: 0 <= i < |xs| && xs[i].intent.opener != o ==> xs[i] in ArmedWithout(xs, o)
  {
    if xs != [] {
      ArmedWithoutMember(xs[1..], o);
    }
  }

  // ----- What is closed against what was filled

  /** An armed intent is to close no more than its share of the opener. */
  predicate Sized(a: Armed, fills: seq<Filled>) {
    0.0 <= a.qty <= Cap(Clamp(a.intent.fraction), Sum(fills, FillQty(a.intent.opener)))
  }

  predicate AllSized(xs: seq<Armed>, fills: seq<Filled>) {
    forall i :: 0 <= i < |xs| ==> Sized(xs[i], fills)
  }

  /** The closes of an opener are within the shares of the intents that fired. */
  predicate Within(closes: seq<Close>, fired: seq<Intent>, fills: seq<Filled>, o: nat) {
    Sum(closes, CloseQty(o)) <= Cap(Sum(fired, Frac(o)), Sum(fills, FillQty(o)))
  }

  /** Fired, armed and pending shares of an opener are within the registered ones. */
  predicate Shared(s: State, o: nat) {
    Sum(s.log.fired, Frac(o)) + Sum(s.armed, ArmedFrac(o)) + Sum(s.pending, Frac(o)) <= Sum(s.log.registered, Frac(o))
  }

  predicate PositiveFills(fills: seq<Filled>) {
    forall i :: 0 <= i < |fills| ==> fills[i].qty >= 0.0
  }

  ghost predicate Bounded(s: State) {
    && PositiveFills(s.log.fills)
    && AllSized(s.armed, s.log.fills)
    && (forall o :: Within(s.log.closes, s.log.fired, s.log.fills, o))
    && (forall o :: Shared(s, o))
  }

  lemma {:induction false} FillsNonNegative(fills: seq<Filled>, o: nat)
    requires PositiveFills(fills)
    ensures Sum(fills, FillQty(o)) >= 0.0
  {
    SumNonNegative(fills, FillQty(o));
  }

  lemma {:induction false} FracNonNegative(xs: seq<Intent>, o: nat)
    ensures Sum(xs, Frac(o)) >= 0.0
  {
    SumNonNegative(xs, Frac(o));
  }

  lemma {:induction false} ArmedNonNegative(xs: seq<Armed>, o: nat)
    ensures Sum(xs, ArmedFrac(o)) >= 0.0
  {
    SumNonNegative(xs, ArmedFrac(o));
  }

  lemma {:induction false} DropBounded(s: State, adapter: bool, o: nat)
    requires Bounded(s)
    ensures Bounded(Drop(s, adapter, o))
  {
    var s' := Drop(s, adapter, o);
    ArmedWithoutMember(s.armed, o);
    forall p
      ensures Shared(s', p)
    {
      assert Shared(s, p);
      WithoutFrac(s.pending, o, p);
      ArmedWithoutSums(s.armed, o, p);
      FracNonNegative(s.pending, p);
      ArmedNonNegative(s.armed, p);
    }
    assert forall p :: Within(s.log.closes, s.log.fired, s.log.fills, p) ==>
             Within(s'.log.closes, s'.log.fired, s'.log.fills, p);
  }

  /** States that differ only in what `Bounded` does not speak of. */
  predicate SameShares(s: State, s': State) {
    && s'.pending == s.pending && s'.armed == s.armed && s'.log.fills == s.log.fills && s'.log.closes == s.log.closes
    && s'.log.fired == s.log.fired && s'.log.registered == s.log.registered
  }

  lemma {:induction false} SameSharesBounded(s: State, s': State)
    requires Bounded(s) && SameShares(s, s')
    ensures Bounded(s')
  {
    assert forall p :: Shared(s, p) ==> Shared(s', p);
  }

  lemma {:induction false} CancelBounded(s: State, adapter: bool, o: nat)
    requires Bounded(s)
    ensures Bounded(Cancel(s, adapter, o))
  {
    var name := NameOf(s, o);
    var s' := if name.Some? && (name.value.strategy != "" || name.value.symbol != "")
              then s.(index := Untracked(s.index, name.value)) else s;
    SameSharesBounded(s, s');
    DropBounded(s', adapter, o);
  }

  lemma {:induction false} DropAllBounded(s: State, adapter: bool, os: seq<nat>)
    requires Bounded(s)
    ensures Bounded(DropAll(s, adapter, os))
    decreases |os|
  {
    if os != [] {
      DropAllBounded(s, adapter, os[..|os| - 1]);
      DropBounded(DropAll(s, adapter, os[..|os| - 1]), adapter, os[|os| - 1]);
    }
  }

  lemma {:induction false} RegisterBounded(s: State, i: Intent)
    requires Bounded(s)
    ensures Bounded(Register(s, i))
  {
    var s' := Register(s, i);
    forall p
      ensures Shared(s', p)
    {
      assert Shared(s, p);
      SumAppend(s.pending, i, Frac(p));
      SumAppend(s.log.registered, i, Frac(p));
    }
    assert forall p :: Within(s.log.closes, s.log.fired, s.log.fills, p) ==>
             Within(s'.log.closes, s'.log.fired, s'.log.fills, p);
  }

  /** A further fill only raises what the shares allow. */
  lemma {:induction false} FillKeepsWithin(s: State, f: Filled, o: nat)
    requires Bounded(s) && f.qty >= 0.0
    ensures Within(s.log.closes, s.log.fired, s.log.fills + [f], o)
  {
    assert Within(s.log.closes, s.log.fired, s.log.fills, o);
    SumAppend(s.log.fills, f, FillQty(o));
    FracNonNegative(s.log.fired, o);
    CapMono(Sum(s.log.fired, Frac(o)), Sum(s.log.fills, FillQty(o)), Sum(s.log.fills + [f], FillQty(o)));
  }

  lemma {:induction false} FillKeepsSized(a: Armed, fills: seq<Filled>, f: Filled)
    requires Sized(a, fills) && f.qty >= 0.0
    ensures Sized(a, fills + [f])
    ensures f.opener == a.intent.opener ==>
      Cap(Clamp(a.intent.fraction), Sum(fills + [f], FillQty(f.opener))) >= a.qty + f.qty * Clamp(a.intent.fraction)
  {
    var o, c := a.intent.opener, Clamp(a.intent.fraction);
    SumAppend(fills, f, FillQty(o));
    CapMono(c, Sum(fills, FillQty(o)), Sum(fills + [f], FillQty(o)));
    CapAdd(c, c, Sum(fills, FillQty(o)), f.qty);
  }

  lemma {:induction false} GrownSized(a: Armed, qty: real, price: real, fills: seq<Filled>)
    requires Sized(a, fills) && qty > 0.0
    ensures Sized(Grown(a, qty, price), fills + [Filled(a.intent.opener, qty)])
  {
    FillKeepsSized(a, fills, Filled(a.intent.opener, qty));
    CapMono(Clamp(a.intent.fraction), 0.0, qty);
  }

  lemma {:induction false} GrowAllSized(xs: seq<Armed>, o: nat, qty: real, price: real, fills: seq<Filled>)
    requires AllSized(xs, fills) && qty > 0.0
    ensures AllSized(GrowAll(xs, o, qty, price), fills + [Filled(o, qty)])
  {
    if xs != [] {
      assert Sized(xs[0], fills);
      GrowAllSized(xs[1..], o, qty, price, fills);
      if xs[0].intent.opener == o {
        GrownSized(xs[0], qty, price, fills);
      } else {
        FillKeepsSized(xs[0], fills, Filled(o, qty));
      }
    }
  }

  lemma {:induction false} GrowAllFracs(xs: seq<Armed>, o: nat, qty: real, price: real, p: nat)
    ensures Sum(GrowAll(xs, o, qty, price), ArmedFrac(p)) == Sum(xs, ArmedFrac(p))
  {
    if xs != [] {
      var head := if xs[0].intent.opener == o then Grown(xs[0], qty, price) else xs[0];
      GrowAllFracs(xs[1..], o, qty, price, p);
      SumConcat([head], GrowAll(xs[1..], o, qty, price), ArmedFrac(p));
      SumOne(head, ArmedFrac(p));
    }
  }

  lemma {:induction false} ArmAllSized(ps: seq<Intent>, o: nat, qty: real, price: real, tag: nat, fills: seq<Filled>)
    requires qty > 0.0 && PositiveFills(fills) && forall i :: 0 <= i < |ps| ==> ps[i].opener == o
    ensures AllSized(ArmAll(ps, qty, price, tag), fills + [Filled(o, qty)])
    ensures forall p :: Sum(ArmAll(ps, qty, price, tag), ArmedFrac(p)) == Sum(ps, Frac(p))
    ensures |ArmAll(ps, qty, price, tag)| == |ps|
  {
    if ps != [] {
      var a := Arm(ps[0], qty, price, tag);
      ArmAllSized(ps[1..], o, qty, price, tag + 1, fills);
      FillsNonNegative(fills, o);
      SumAppend(fills, Filled(o, qty), FillQty(o));
      CapMono(Clamp(ps[0].fraction), qty, Sum(fills + [Filled(o, qty)], FillQty(o)));
      assert Sized(a, fills + [Filled(o, qty)]);
      forall p
        ensures Sum(ArmAll(ps, qty, price, tag), ArmedFrac(p)) == Sum(ps, Frac(p))
      {
        SumConcat([a], ArmAll(ps[1..], qty, price, tag + 1), ArmedFrac(p));
        SumOne(a, ArmedFrac(p));
      }
    }
  }

  lemma {:induction false} PendingForOpener(ps: seq<Intent>, o: nat)
    ensures forall i :: 0 <= i < |PendingFor(ps, o)| ==> PendingFor(ps, o)[i].opener == o
  {
    if ps != [] {
      PendingForOpener(ps[1..], o);
    }
  }

  lemma {:induction false} GrowBounded(s: State, s': State, o: nat, qty: real, price: real)
    requires Bounded(s) && qty > 0.0
    requires SameShares(s.(armed := GrowAll(s.armed, o, qty, price),
                           log := s.log.(fills := s.log.fills + [Filled(o, qty)])), s')
    ensures Bounded(s')
  {
    GrowAllSized(s.armed, o, qty, price, s.log.fills);
    forall p
      ensures Shared(s', p) && Within(s'.log.closes, s'.log.fired, s'.log.fills, p)
    {
      assert Shared(s, p);
      GrowAllFracs(s.armed, o, qty, price, p);
      FillKeepsWithin(s, Filled(o, qty), p);
    }
  }

  lemma {:induction false} ArmBounded(s: State, s': State, o: nat, qty: real, price: real)
    requires Bounded(s) && qty > 0.0
    requires SameShares(s.(armed := s.armed + ArmAll(PendingFor(s.pending, o), qty, price, s.nextTag),
                           pending := PendingWithout(s.pending, o),
                           log := s.log.(fills := s.log.fills + [Filled(o, qty)])), s')
    ensures Bounded(s')
  {
    var ps, f := PendingFor(s.pending, o), Filled(o, qty);
    PendingForOpener(s.pending, o);
    ArmAllSized(ps, o, qty, price, s.nextTag, s.log.fills);
    forall i | 0 <= i < |s.armed|
      ensures Sized(s.armed[i], s'.log.fills)
    {
      FillKeepsSized(s.armed[i], s.log.fills, f);
    }
    forall p
      ensures Shared(s', p) && Within(s'.log.closes, s'.log.fired, s'.log.fills, p)
    {
      assert Shared(s, p);
      FillKeepsWithin(s, f, p);
      WithoutFrac(s.pending, o, p);
      SumConcat(s.armed, ArmAll(ps, qty, price, s.nextTag), ArmedFrac(p));
    }
  }

  lemma {:induction false} OpenerFillBounded(s: State, adapter: bool, o: nat, qty: real, price: real,
                                             placed: Option<nat>)
    requires Bounded(s) && qty > 0.0
    ensures Bounded(OpenerFill(s, adapter, o, qty, price, placed))
  {
    var s' := OpenerFill(s, adapter, o, qty, price, placed);
    if PendingFor(s.pending, o) == [] {
      GrowBounded(s, s', o, qty, price);
    } else {
      ArmBounded(s, s', o, qty, price);
    }
  }

  lemma {:induction false} RehashBounded(s: State, pending: seq<Intent>, armed: seq<Armed>, index: seq<Key>)
    requires Bounded(s)
    ensures Bounded(Rehash(s, pending, armed, index))
  {
    if Reordered(s, pending, armed, index) {
      var s' := Rehash(s, pending, armed, index);
      SameElements(s.armed, armed);
      forall i | 0 <= i < |armed|
        ensures Sized(armed[i], s.log.fills)
      {
        assert armed[i] in s.armed;
      }
      forall p
        ensures Shared(s', p)
      {
        assert Shared(s, p);
        SumReordered(s.armed, armed, ArmedFrac(p));
        SumReordered(s.pending, pending, Frac(p));
      }
    }
  }

  lemma {:induction false} RehydrateBounded(s: State, i: Intent, qty: real, entry: real, bracket: Option<nat>)
    requires Bounded(s) && qty > 0.0
    ensures Bounded(Rehydrate(s, i, qty, entry, bracket))
  {
    if i.opener != 0 && bracket.Some? {
      var s' := Rehydrate(s, i, qty, entry, bracket);
      var a, f := Armed(i.(fraction := 1.0), qty, entry, entry, s.nextTag), Filled(i.opener, qty);
      FillsNonNegative(s.log.fills, i.opener);
      SumAppend(s.log.fills, f, FillQty(i.opener));
      assert Sized(a, s'.log.fills);
      forall j | 0 <= j < |s.armed|
        ensures Sized(s.armed[j], s'.log.fills)
      {
        FillKeepsSized(s.armed[j], s.log.fills, f);
      }
      forall p
        ensures Shared(s', p) && Within(s'.log.closes, s'.log.fired, s'.log.fills, p)
      {
        assert Shared(s, p);
        FillKeepsWithin(s, f, p);
        SumAppend(s.armed, a, ArmedFrac(p));
        SumAppend(s.log.registered, a.intent, Frac(p));
      }
    }
  }

  // ----- Firing

  /** An armed intent as a trigger leaves it: the same opener, share and quantity. */
  predicate SameShare(a: Armed, b: Armed) {
    b.intent.opener == a.intent.opener && b.intent.fraction == a.intent.fraction && b.qty == a.qty && b.tag == a.tag
  }

  lemma {:induction false} KeepBounded(s: State, i: nat, b: Armed)
    requires Bounded(s) && i < |s.armed| && SameShare(s.armed[i], b)
    ensures Bounded(s.(armed := s.armed[i := b]))
  {
    var s' := s.(armed := s.armed[i := b]);
    assert Sized(s.armed[i], s.log.fills);
    forall p
      ensures Shared(s', p)
    {
      assert Shared(s, p);
      SumUpdate(s.armed, i, b, ArmedFrac(p));
    }
  }

  lemma {:induction false} RemoveBounded(s: State, i: nat)
    requires Bounded(s) && i < |s.armed|
    ensures Bounded(s.(armed := RemoveAt(s.armed, i)))
  {
    var s' := s.(armed := RemoveAt(s.armed, i));
    forall p
      ensures Shared(s', p)
    {
      assert Shared(s, p);
      SumRemove(s.armed, i, ArmedFrac(p));
    }
  }

  /** An intent that fires moves its share from armed to fired. */
  lemma {:induction false} EmitBounded(s: State, s': State, i: nat, b: Armed, qty: real, price: real)
    requires Bounded(s) && i < |s.armed| && SameShare(s.armed[i], b) && 0.0 < qty <= b.qty
    requires SameShares(s.(armed := RemoveAt(s.armed, i),
                           log := s.log.(closes := s.log.closes + [Close(b.intent.opener, qty, price)],
                                         fired := s.log.fired + [b.intent])), s')
    ensures Bounded(s')
  {
    var o := b.intent.opener;
    assert Sized(s.armed[i], s.log.fills);
    forall p
      ensures Shared(s', p) && Within(s'.log.closes, s'.log.fired, s'.log.fills, p)
    {
      assert Shared(s, p) && Within(s.log.closes, s.log.fired, s.log.fills, p);
      SumRemove(s.armed, i, ArmedFrac(p));
      SumAppend(s.log.fired, b.intent, Frac(p));
      SumAppend(s.log.closes, Close(o, qty, price), CloseQty(p));
      CapAdd(Sum(s.log.fired, Frac(p)), Clamp(b.intent.fraction), Sum(s.log.fills, FillQty(p)), 0.0);
    }
  }

  lemma {:induction false} FiredBounded(s: State, adapter: bool, i: nat, b: Armed, price: real)
    requires Bounded(s) && i < |s.armed| && SameShare(s.armed[i], b)
    ensures Bounded(Fired(s, adapter, i, b, price))
  {
    var s', qty := Fired(s, adapter, i, b, price), Granted(s.remaining, b.intent.opener, b.qty);
    if qty <= 0.0 {
      RemoveBounded(s, i);
      SameSharesBounded(s.(armed := RemoveAt(s.armed, i)), s');
    } else {
      EmitBounded(s, s', i, b, qty, price);
    }
  }

  lemma {:induction false} JudgeShares(a: Armed, t: Trigger)
    ensures SameShare(a, Judge(a, t).armed)
  {
    JudgeRatchets(a, t);
  }

  lemma {:induction false} VisitBounded(s: State, adapter: bool, i: nat, t: Trigger)
    requires Bounded(s) && i < |s.armed|
    ensures Bounded(Visit(s, adapter, i, t))
  {
    JudgeShares(s.armed[i], t);
    match Judge(s.armed[i], t)
    case Keep(b) => KeepBounded(s, i, b);
    case Fire(b, price) => FiredBounded(s, adapter, i, b, price);
  }

  lemma {:induction false} ScanBounded(s: State, adapter: bool, i: nat, t: Trigger)
    requires Bounded(s)
    ensures Bounded(Scan(s, adapter, i, t))
    decreases |s.armed| - i
  {
    if i < |s.armed| {
      VisitBounded(s, adapter, i, t);
      VisitLength(s, adapter, i, t);
      ScanBounded(Visit(s, adapter, i, t), adapter, if Stays(s.armed[i], t) then i + 1 else i, t);
    }
  }

  lemma {:induction false} VisitLength(s: State, adapter: bool, i: nat, t: Trigger)
    requires i < |s.armed|
    ensures |Visit(s, adapter, i, t).armed| == if Stays(s.armed[i], t) then |s.armed| else |s.armed| - 1
  {
    if !Stays(s.armed[i], t) {
      FiredShrinks(s, adapter, i, Judge(s.armed[i], t).armed, Judge(s.armed[i], t).price);
    }
  }

  lemma {:induction false} StepBounded(s: State, adapter: bool, a: Action)
    requires Bounded(s) && Positive(a)
    ensures Bounded(Step(s, adapter, a))
  {
    match a
    case Add(i) => RegisterBounded(s, i);
    case Opened(o, qty, price, placed) => OpenerFillBounded(s, adapter, o, qty, price, placed);
    case Closed(o, qty, own) => CloserFillBounded(s, adapter, o, qty, own);
    case Market(t) => ScanBounded(s, adapter, 0, t);
    case CancelOne(o) => CancelBounded(s, adapter, o);
    case CancelFor(strategy, symbol) =>
      SameSharesBounded(s, s.(index := IndexWithout(s.index, strategy, symbol)));
      DropAllBounded(s.(index := IndexWithout(s.index, strategy, symbol)), adapter,
                     OpenersOf(s.index, strategy, symbol));
    case Recover(i, qty, entry, bracket) => RehydrateBounded(s, i, qty, entry, bracket);
    case Shuffle(pending, armed, index) => RehashBounded(s, pending, armed, index);
  }

  lemma {:induction false} CloserFillBounded(s: State, adapter: bool, o: nat, qty: real, own: bool)
    requires Bounded(s)
    ensures Bounded(CloserFill(s, adapter, o, qty, own))
  {
    SameSharesBounded(s, Settle(s, o, qty, own));
    CancelBounded(Settle(s, o, qty, own), adapter, o);
  }

  lemma {:induction false} RunBounded(adapter: bool, actions: seq<Action>)
    requires forall i :: 0 <= i < |actions| ==> Positive(actions[i])
    ensures Bounded(Run(adapter, actions))
    decreases |actions|
  {
    if actions != [] {
      RunBounded(adapter, actions[..|actions| - 1]);
      StepBounded(Run(adapter, actions[..|actions| - 1]), adapter, actions[|actions| - 1]);
    }
  }

  /** Over every run the closes of an opener stay within its registered shares of what was filled;
      if the shares sum to at most one, no more is closed than was opened. */
  lemma {:induction false} NeverOverCloses(adapter: bool, actions: seq<Action>, o: nat)
    requires forall i :: 0 <= i < |actions| ==> Positive(actions[i])
    ensures var log := Run(adapter, actions).log;
      && Sum(log.closes, CloseQty(o)) <= Cap(Sum(log.registered, Frac(o)), Sum(log.fills, FillQty(o)))
      && (Sum(log.registered, Frac(o)) <= 1.0 ==> Sum(log.closes, CloseQty(o)) <= Sum(log.fills, FillQty(o)))
  {
    RunBounded(adapter, actions);
    var s := Run(adapter, actions);
    assert Within(s.log.closes, s.log.fired, s.log.fills, o) && Shared(s, o);
    ArmedNonNegative(s.armed, o);
    FracNonNegative(s.pending, o);
    FillsNonNegative(s.log.fills, o);
    ShareMono(Sum(s.log.fired, Frac(o)), Sum(s.log.registered, Frac(o)), Sum(s.log.fills, FillQty(o)));
    if Sum(s.log.registered, Frac(o)) <= 1.0 {
      ShareMono(Sum(s.log.registered, Frac(o)), 1.0, Sum(s.log.fills, FillQty(o)));
    }
  }

  lemma {:induction false} ShareMono(f: real, g: real, x: real)
    requires f <= g && x >= 0.0
    ensures Cap(f, x) <= Cap(g, x)
  {
    CapAdd(f, g - f, x, 0.0);
    CapMono(g - f, 0.0, x);
  }
}
