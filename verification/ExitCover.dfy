/** With shares that sum to at most one and quantities in whole lots, what remains of an opener
    always covers its armed intents. So fills of the manager's own closes never disarm the surviving
    siblings of the intent that fired.
 */
module ExitCover {
  import opened Lots
  import opened Sums
  import opened ExitRules
  import opened ExitModel
  import opened ExitSafety
  import opened ExitBrackets

  ghost predicate Modest(s: State) {
    forall o :: Sum(s.log.registered, Frac(o)) <= 1.0
  }

  /** What remains of an opener covers all its armed intents. */
  predicate CoveredAt(armed: seq<Armed>, remaining: map<nat, real>, o: nat) {
    IsArmed(armed, o) ==> o in remaining && remaining[o] >= Sum(armed, ArmedQty(o))
  }

  ghost predicate LotSized(a: Armed, lot: real) {
    a.qty > 0.0 && IsLots(a.qty, lot)
  }

  ghost predicate ArmedLots(armed: seq<Armed>, lot: real) {
    forall i :: 0 <= i < |armed| ==> LotSized(armed[i], lot)
  }

  /** The share of a fill comes in whole lots. */
  ghost predicate ShareLots(fraction: real, qty: real, lot: real) {
    IsLots(qty * Clamp(fraction), lot)
  }

  ghost predicate MapLots(m: map<nat, real>, lot: real) {
    forall o :: o in m ==> m[o] >= 0.0 && IsLots(m[o], lot)
  }

  /** What is in flight for an opener is what its own closes still have to fill, unless another
      closing fill came in between. */
  predicate Matches(s: State, o: nat) {
    o !in s.log.disturbed ==> Amount(s.inFlight, o) == Amount(s.log.outstanding, o)
  }

  ghost predicate Cover(s: State, lot: real) {
    && ArmedLots(s.armed, lot) && MapLots(s.remaining, lot) && MapLots(s.inFlight, lot)
    && (forall o :: CoveredAt(s.armed, s.remaining, o))
    && (forall o :: Matches(s, o))
  }

  /** Fills come in whole lots, so do the shares of an opener fill, and the manager's own closes fill
      no more than they have outstanding. A cancel of the opener ends what is outstanding: a fill that
      comes after it counts as a close from elsewhere. */
  ghost predicate InLots(s: State, lot: real, a: Action) {
    match a
    case Opened(o, qty, _, _) =>
      && qty > 0.0 && IsLots(qty, lot)
      && (forall i :: 0 <= i < |s.pending| && s.pending[i].opener == o ==> ShareLots(s.pending[i].fraction, qty, lot))
      && (forall i :: 0 <= i < |s.armed| && s.armed[i].intent.opener == o ==>
            ShareLots(s.armed[i].intent.fraction, qty, lot))
    case Closed(o, qty, own) => qty > 0.0 && IsLots(qty, lot) && (own ==> qty <= Amount(s.log.outstanding, o))
    case Recover(_, qty, _, _) => qty > 0.0 && IsLots(qty, lot)
    case _ => true
  }

  lemma {:induction false} NotArmedSum(xs: seq<Armed>, o: nat)
    requires !IsArmed(xs, o)
    ensures Sum(xs, ArmedQty(o)) == 0.0 && Sum(xs, ArmedFrac(o)) == 0.0
  {
    if xs != [] {
      assert xs[0].intent.opener != o;
      forall i | 0 <= i < |xs[1..]|
        ensures xs[1..][i].intent.opener != o
      {
        assert xs[1..][i] == xs[i + 1];
      }
      NotArmedSum(xs[1..], o);
    }
  }

  lemma {:induction false} ArmedSumPositive(xs: seq<Armed>, o: nat, lot: real)
    requires ArmedLots(xs, lot)
    ensures Sum(xs, ArmedQty(o)) >= 0.0
    ensures IsArmed(xs, o) ==> Sum(xs, ArmedQty(o)) > 0.0 && Sum(xs, ArmedFrac(o)) > 0.0
  {
    SumNonNegative(xs, ArmedQty(o));
    if IsArmed(xs, o) {
      var i :| 0 <= i < |xs| && xs[i].intent.opener == o;
      SumAtLeast(xs, i, ArmedQty(o));
      SumAtLeast(xs, i, ArmedFrac(o));
    }
  }

  /** Before an opener fill: the sum of its armed quantities is within what remains, armed or not. */
  lemma {:induction false} CoveredAmount(s: State, lot: real, o: nat)
    requires Cover(s, lot)
    ensures Sum(s.armed, ArmedQty(o)) <= Amount(s.remaining, o)
  {
    assert CoveredAt(s.armed, s.remaining, o);
    if !IsArmed(s.armed, o) {
      NotArmedSum(s.armed, o);
    }
  }

  // ----- Opener fills

  lemma {:induction false} GrowSums(xs: seq<Armed>, o: nat, qty: real, price: real, p: nat)
    requires qty > 0.0
    ensures Sum(GrowAll(xs, o, qty, price), ArmedQty(p)) ==
            Sum(xs, ArmedQty(p)) + if p == o then Cap(Sum(xs, ArmedFrac(o)), qty) else 0.0
  {
    if xs != [] {
      GrowSums(xs[1..], o, qty, price, p);
      var head := if xs[0].intent.opener == o then Grown(xs[0], qty, price) else xs[0];
      SumConcat([head], GrowAll(xs[1..], o, qty, price), ArmedQty(p));
      SumOne(head, ArmedQty(p));
      CapMono(Clamp(xs[0].intent.fraction), 0.0, qty);
      CapAdd(ArmedFrac(o)(xs[0]), Sum(xs[1..], ArmedFrac(o)), qty, 0.0);
      GrownQty(xs[0], qty, price);
    }
  }

  lemma {:induction false} GrownQty(a: Armed, qty: real, price: real)
    requires qty > 0.0
    ensures Grown(a, qty, price).qty == a.qty + Cap(Clamp(a.intent.fraction), qty)
    ensures Cap(Clamp(a.intent.fraction), qty) > 0.0
  {
    assert Clamp(a.intent.fraction) * qty > 0.0;
  }

  lemma {:induction false} ArmAllSums(ps: seq<Intent>, qty: real, price: real, tag: nat, p: nat)
    ensures Sum(ArmAll(ps, qty, price, tag), ArmedQty(p)) == Cap(Sum(ps, Frac(p)), qty)
  {
    if ps != [] {
      ArmAllSums(ps[1..], qty, price, tag + 1, p);
      var a := Arm(ps[0], qty, price, tag);
      SumConcat([a], ArmAll(ps[1..], qty, price, tag + 1), ArmedQty(p));
      SumOne(a, ArmedQty(p));
      CapAdd(Frac(p)(ps[0]), Sum(ps[1..], Frac(p)), qty, 0.0);
    }
  }

  lemma {:induction false} GrowLots(xs: seq<Armed>, o: nat, qty: real, price: real, lot: real)
    requires ArmedLots(xs, lot) && qty > 0.0
    requires forall i :: 0 <= i < |xs| && xs[i].intent.opener == o ==> ShareLots(xs[i].intent.fraction, qty, lot)
    ensures ArmedLots(GrowAll(xs, o, qty, price), lot)
  {
    if xs != [] {
      GrowLots(xs[1..], o, qty, price, lot);
      if xs[0].intent.opener == o {
        GrownLots(xs[0], qty, price, lot);
      }
    }
  }

  lemma {:induction false} GrownLots(a: Armed, qty: real, price: real, lot: real)
    requires qty > 0.0 && LotSized(a, lot) && ShareLots(a.intent.fraction, qty, lot)
    ensures LotSized(Grown(a, qty, price), lot)
  {
    GrownQty(a, qty, price);
    LotsSum(a.qty, qty * Clamp(a.intent.fraction), lot);
  }

  lemma {:induction false} ArmOneLots(i: Intent, qty: real, price: real, tag: nat, lot: real)
    requires qty > 0.0 && ShareLots(i.fraction, qty, lot)
    ensures LotSized(Arm(i, qty, price, tag), lot)
  {
    assert Clamp(i.fraction) * qty > 0.0;
  }

  lemma {:induction false} ArmLots(ps: seq<Intent>, qty: real, price: real, tag: nat, lot: real)
    requires qty > 0.0 && forall i :: 0 <= i < |ps| ==> ShareLots(ps[i].fraction, qty, lot)
    ensures ArmedLots(ArmAll(ps, qty, price, tag), lot)
  {
    if ps != [] {
      var rest := ArmAll(ps[1..], qty, price, tag + 1);
      ArmLots(ps[1..], qty, price, tag + 1, lot);
      ArmOneLots(ps[0], qty, price, tag, lot);
      assert ArmAll(ps, qty, price, tag) == [Arm(ps[0], qty, price, tag)] + rest;
    }
  }

  lemma {:induction false} PendingForMember(ps: seq<Intent>, o: nat)
    ensures forall i :: 0 <= i < |PendingFor(ps, o)| ==> PendingFor(ps, o)[i] in ps && PendingFor(ps, o)[i].opener == o
  {
    if ps != [] {
      PendingForMember(ps[1..], o);
    }
  }

  /** Shares of an opener that are armed or pending. */
  lemma {:induction false} ShareSums(s: State, o: nat)
    requires Bounded(s) && Modest(s)
    ensures 0.0 <= Sum(s.armed, ArmedFrac(o)) <= 1.0 && 0.0 <= Sum(s.pending, Frac(o)) <= 1.0
  {
    assert Shared(s, o) && Sum(s.log.registered, Frac(o)) <= 1.0;
    FracNonNegative(s.log.fired, o);
    FracNonNegative(s.pending, o);
    ArmedNonNegative(s.armed, o);
  }

  lemma {:induction false} RemainingLots(m: map<nat, real>, o: nat, qty: real, lot: real)
    requires MapLots(m, lot) && qty >= 0.0 && IsLots(qty, lot)
    ensures MapLots(m[o := Amount(m, o) + qty], lot)
  {
    if o in m {
      LotsSum(m[o], qty, lot);
    }
  }

  lemma {:induction false} OpenerFillLots(s: State, lot: real, adapter: bool, o: nat, qty: real, price: real,
                                          placed: Option<nat>)
    requires ArmedLots(s.armed, lot) && MapLots(s.remaining, lot) && InLots(s, lot, Opened(o, qty, price, placed))
    ensures var s' := OpenerFill(s, adapter, o, qty, price, placed);
      ArmedLots(s'.armed, lot) && MapLots(s'.remaining, lot)
  {
    RemainingLots(s.remaining, o, qty, lot);
    if PendingFor(s.pending, o) == [] {
      GrowLots(s.armed, o, qty, price, lot);
    } else {
      ArmPendingLots(s, lot, o, qty, price);
    }
  }

  lemma {:induction false} ArmPendingLots(s: State, lot: real, o: nat, qty: real, price: real)
    requires ArmedLots(s.armed, lot) && qty > 0.0
    requires forall i :: 0 <= i < |s.pending| && s.pending[i].opener == o ==> ShareLots(s.pending[i].fraction, qty, lot)
    ensures ArmedLots(s.armed + ArmAll(PendingFor(s.pending, o), qty, price, s.nextTag), lot)
  {
    var ps := PendingFor(s.pending, o);
    PendingForMember(s.pending, o);
    forall i | 0 <= i < |ps|
      ensures ShareLots(ps[i].fraction, qty, lot)
    {
      var j :| 0 <= j < |s.pending| && s.pending[j] == ps[i];
    }
    ArmLots(ps, qty, price, s.nextTag, lot);
  }

  lemma {:induction false} OpenerFillShare(s: State, lot: real, o: nat, qty: real)
    requires Cover(s, lot) && Bounded(s) && Modest(s) && qty > 0.0
    ensures Sum(s.armed, ArmedQty(o)) + Cap(Sum(s.armed, ArmedFrac(o)), qty) <= Amount(s.remaining, o) + qty
    ensures Sum(s.armed, ArmedQty(o)) + Cap(Sum(PendingFor(s.pending, o), Frac(o)), qty) <= Amount(s.remaining, o) + qty
  {
    ShareSums(s, o);
    CoveredAmount(s, lot, o);
    WithoutFrac(s.pending, o, o);
    ShareMono(Sum(s.armed, ArmedFrac(o)), 1.0, qty);
    ShareMono(Sum(PendingFor(s.pending, o), Frac(o)), 1.0, qty);
  }

  lemma {:induction false} OpenerFillCover(s: State, lot: real, adapter: bool, o: nat, qty: real, price: real,
                                           placed: Option<nat>)
    requires Cover(s, lot) && Bounded(s) && Modest(s) && InLots(s, lot, Opened(o, qty, price, placed))
    ensures Cover(OpenerFill(s, adapter, o, qty, price, placed), lot)
  {
    var s' := OpenerFill(s, adapter, o, qty, price, placed);
    OpenerFillLots(s, lot, adapter, o, qty, price, placed);
    OpenerFillShare(s, lot, o, qty);
    forall p
      ensures CoveredAt(s'.armed, s'.remaining, p) && Matches(s', p)
    {
      assert CoveredAt(s.armed, s.remaining, p) && Matches(s, p);
      OpenerFillSums(s, adapter, o, qty, price, placed, p);
    }
  }

  lemma {:induction false} OpenerFillSums(s: State, adapter: bool, o: nat, qty: real, price: real,
                                          placed: Option<nat>, p: nat)
    requires qty > 0.0
    ensures var s' := OpenerFill(s, adapter, o, qty, price, placed);
      && Sum(s'.armed, ArmedQty(p)) == Sum(s.armed, ArmedQty(p)) +
           (if p != o then 0.0
            else if PendingFor(s.pending, o) == [] then Cap(Sum(s.armed, ArmedFrac(o)), qty)
            else Cap(Sum(PendingFor(s.pending, o), Frac(o)), qty))
      && (p != o && IsArmed(s'.armed, p) ==> IsArmed(s.armed, p))
  {
    var s', ps := OpenerFill(s, adapter, o, qty, price, placed), PendingFor(s.pending, o);
    if ps == [] {
      GrowSums(s.armed, o, qty, price, p);
      GrowArmed(s.armed, o, qty, price);
    } else {
      ArmAllSums(ps, qty, price, s.nextTag, p);
      SumConcat(s.armed, ArmAll(ps, qty, price, s.nextTag), ArmedQty(p));
      WithoutFrac(s.pending, o, p);
      ArmAllOpeners(ps, o, qty, price, s.nextTag, s.pending);
    }
    if p != o && IsArmed(s'.armed, p) {
      var j :| 0 <= j < |s'.armed| && s'.armed[j].intent.opener == p;
      assert j < |s.armed| && s.armed[j].intent.opener == p;
    }
  }

  lemma {:induction false} ArmAllOpeners(ps: seq<Intent>, o: nat, qty: real, price: real, tag: nat, all: seq<Intent>)
    requires ps == PendingFor(all, o)
    ensures forall k :: 0 <= k < |ArmAll(ps, qty, price, tag)| ==> ArmAll(ps, qty, price, tag)[k].intent.opener == o
  {
    PendingForMember(all, o);
    ArmOpeners(ps, o, qty, price, tag);
  }

  lemma {:induction false} ArmOpeners(ps: seq<Intent>, o: nat, qty: real, price: real, tag: nat)
    requires forall k :: 0 <= k < |ps| ==> ps[k].opener == o
    ensures forall k :: 0 <= k < |ArmAll(ps, qty, price, tag)| ==> ArmAll(ps, qty, price, tag)[k].intent.opener == o
  {
    if ps != [] {
      ArmOpeners(ps[1..], o, qty, price, tag + 1);
    }
  }

  // ----- Cancels

  lemma {:induction false} DropCover(s: State, lot: real, adapter: bool, o: nat)
    requires Cover(s, lot)
    ensures Cover(Drop(s, adapter, o), lot)
  {
    var s' := Drop(s, adapter, o);
    ArmedWithoutMember(s.armed, o);
    forall p
      ensures CoveredAt(s'.armed, s'.remaining, p) && Matches(s', p)
    {
      assert CoveredAt(s.armed, s.remaining, p) && Matches(s, p);
      ArmedWithoutSums(s.armed, o, p);
    }
  }

  /** States that differ only in what `Cover` does not speak of. */
  predicate SameCover(s: State, s': State) {
    && s'.armed == s.armed && s'.remaining == s.remaining && s'.inFlight == s.inFlight
    && s'.log.outstanding == s.log.outstanding && s'.log.disturbed == s.log.disturbed
  }

  lemma {:induction false} SameCoverCover(s: State, s': State, lot: real)
    requires Cover(s, lot) && SameCover(s, s')
    ensures Cover(s', lot)
  {
    assert forall p :: Matches(s, p) ==> Matches(s', p);
  }

  lemma {:induction false} CancelCover(s: State, lot: real, adapter: bool, o: nat)
    requires Cover(s, lot)
    ensures Cover(Cancel(s, adapter, o), lot)
  {
    var name := NameOf(s, o);
    DropCover(s, lot, adapter, o);
    if name.Some? {
      var s' := s.(index := Untracked(s.index, name.value));
      SameCoverCover(s, s', lot);
      DropCover(s', lot, adapter, o);
    }
  }

  lemma {:induction false} DropAllCover(s: State, lot: real, adapter: bool, os: seq<nat>)
    requires Cover(s, lot)
    ensures Cover(DropAll(s, adapter, os), lot)
    decreases |os|
  {
    if os != [] {
      DropAllCover(s, lot, adapter, os[..|os| - 1]);
      DropCover(DropAll(s, adapter, os[..|os| - 1]), lot, adapter, os[|os| - 1]);
    }
  }

  // ----- Closing fills

  lemma {:induction false} MatchedLots(m: map<nat, real>, o: nat, qty: real, lot: real)
    requires MapLots(m, lot) && lot > DUST && qty > 0.0 && IsLots(qty, lot)
    ensures MapLots(Matched(m, o, qty), lot)
    ensures Amount(Matched(m, o, qty), o) == if o in m then m[o] - Min(qty, m[o]) else 0.0
    ensures forall p :: p != o ==> Amount(Matched(m, o, qty), p) == Amount(m, p)
  {
    if o in m {
      var left := m[o] - Min(qty, m[o]);
      LotsSum(m[o], qty, lot);
      LotsSum(m[o], m[o], lot);
      LotsApart(left, lot);
    }
  }

  lemma {:induction false} SettleCover(s: State, lot: real, o: nat, qty: real, own: bool)
    requires Cover(s, lot) && lot > DUST && InLots(s, lot, Closed(o, qty, own))
    ensures Cover(Settle(s, o, qty, own), lot)
  {
    var s' := Settle(s, o, qty, own);
    MatchedLots(s.inFlight, o, qty, lot);
    forall p
      ensures CoveredAt(s'.armed, s'.remaining, p) && Matches(s', p)
    {
      assert CoveredAt(s.armed, s.remaining, p) && Matches(s, p);
    }
  }

  lemma {:induction false} CloserFillCover(s: State, lot: real, adapter: bool, o: nat, qty: real, own: bool)
    requires Cover(s, lot) && lot > DUST && InLots(s, lot, Closed(o, qty, own))
    ensures Cover(CloserFill(s, adapter, o, qty, own), lot)
  {
    SettleCover(s, lot, o, qty, own);
    CancelCover(Settle(s, o, qty, own), lot, adapter, o);
  }

  // ----- Firing

  lemma {:induction false} KeepCover(s: State, lot: real, i: nat, b: Armed)
    requires Cover(s, lot) && i < |s.armed| && SameShare(s.armed[i], b)
    ensures Cover(s.(armed := s.armed[i := b]), lot)
  {
    var s' := s.(armed := s.armed[i := b]);
    assert LotSized(s.armed[i], lot);
    forall p
      ensures CoveredAt(s'.armed, s'.remaining, p) && Matches(s', p)
    {
      assert CoveredAt(s.armed, s.remaining, p) && Matches(s, p);
      SumUpdate(s.armed, i, b, ArmedQty(p));
      if IsArmed(s'.armed, p) {
        var j :| 0 <= j < |s'.armed| && s'.armed[j].intent.opener == p;
        assert s.armed[j].intent.opener == p;
      }
    }
  }

  /** A covered intent is granted all it asks for, and what is left covers its siblings. */
  lemma {:induction false} GrantCover(s: State, lot: real, i: nat, b: Armed)
    requires Cover(s, lot) && lot > DUST && i < |s.armed| && SameShare(s.armed[i], b)
    ensures var o, rest := b.intent.opener, RemoveAt(s.armed, i);
      && o in s.remaining && Granted(s.remaining, o, b.qty) == b.qty && b.qty > 0.0 && IsLots(b.qty, lot)
      && Consumed(s.remaining, o, b.qty) == s.remaining[o := s.remaining[o] - b.qty]
      && s.remaining[o] - b.qty >= Sum(rest, ArmedQty(o)) && s.remaining[o] - b.qty >= 0.0
      && IsLots(s.remaining[o] - b.qty, lot)
  {
    var o := b.intent.opener;
    assert LotSized(s.armed[i], lot);
    assert IsArmed(s.armed, o) && CoveredAt(s.armed, s.remaining, o);
    SumRemove(s.armed, i, ArmedQty(o));
    ArmedSumPositive(RemoveAt(s.armed, i), o, lot);
    LotsSum(s.remaining[o], b.qty, lot);
    LotsApart(s.remaining[o] - b.qty, lot);
  }

  /** The state after a covered intent fired: all of it is closed, and the rest is kept only while
      siblings are armed. */
  lemma {:induction false} FiredShape(s: State, lot: real, adapter: bool, i: nat, b: Armed, price: real)
    requires Cover(s, lot) && lot > DUST && i < |s.armed| && SameShare(s.armed[i], b)
    ensures var s', o, rest := Fired(s, adapter, i, b, price), b.intent.opener, RemoveAt(s.armed, i);
      && s'.armed == rest
      && s'.inFlight == s.inFlight[o := Amount(s.inFlight, o) + b.qty]
      && s'.log.outstanding == s.log.outstanding[o := Amount(s.log.outstanding, o) + b.qty]
      && s'.log.disturbed == s.log.disturbed
      && (IsArmed(rest, o) ==> s'.remaining == Consumed(s.remaining, o, b.qty))
      && (!IsArmed(rest, o) ==> s'.remaining == Consumed(s.remaining, o, b.qty) - {o})
  {
    GrantCover(s, lot, i, b);
    ArmedSumPositive(RemoveAt(s.armed, i), b.intent.opener, lot);
  }

  /** Removing an armed intent together with its quantity. */
  lemma {:induction false} RemoveCovered(armed: seq<Armed>, remaining: map<nat, real>, i: nat, p: nat,
                                         remaining': map<nat, real>)
    requires i < |armed| && CoveredAt(armed, remaining, p)
    requires p != armed[i].intent.opener ==> (p in remaining ==> p in remaining' && remaining'[p] == remaining[p])
    requires p == armed[i].intent.opener && IsArmed(RemoveAt(armed, i), p) ==>
      p in remaining' && remaining'[p] >= Sum(RemoveAt(armed, i), ArmedQty(p))
    ensures CoveredAt(RemoveAt(armed, i), remaining', p)
  {
    var rest := RemoveAt(armed, i);
    SumRemove(armed, i, ArmedQty(p));
    if IsArmed(rest, p) {
      var j :| 0 <= j < |rest| && rest[j].intent.opener == p;
      assert armed[if j < i then j else j + 1].intent.opener == p;
    }
  }

  lemma {:induction false} FiredCover(s: State, lot: real, adapter: bool, i: nat, b: Armed, price: real)
    requires Cover(s, lot) && lot > DUST && i < |s.armed| && SameShare(s.armed[i], b)
    ensures Cover(Fired(s, adapter, i, b, price), lot)
  {
    var s', o := Fired(s, adapter, i, b, price), b.intent.opener;
    FiredShape(s, lot, adapter, i, b, price);
    GrantCover(s, lot, i, b);
    RemainingLots(s.inFlight, o, b.qty, lot);
    assert MapLots(s'.remaining, lot);
    forall p
      ensures CoveredAt(s'.armed, s'.remaining, p) && Matches(s', p)
    {
      assert CoveredAt(s.armed, s.remaining, p) && Matches(s, p);
      RemoveCovered(s.armed, s.remaining, i, p, s'.remaining);
    }
  }

  lemma {:induction false} VisitCover(s: State, lot: real, adapter: bool, i: nat, t: Trigger)
    requires Cover(s, lot) && lot > DUST && i < |s.armed|
    ensures Cover(Visit(s, adapter, i, t), lot)
  {
    JudgeShares(s.armed[i], t);
    match Judge(s.armed[i], t)
    case Keep(b) => KeepCover(s, lot, i, b);
    case Fire(b, price) => FiredCover(s, lot, adapter, i, b, price);
  }

  lemma {:induction false} ScanCover(s: State, lot: real, adapter: bool, i: nat, t: Trigger)
    requires Cover(s, lot) && lot > DUST
    ensures Cover(Scan(s, adapter, i, t), lot)
    decreases |s.armed| - i
  {
    if i < |s.armed| {
      VisitCover(s, lot, adapter, i, t);
      VisitLength(s, adapter, i, t);
      ScanCover(Visit(s, adapter, i, t), lot, adapter, if Stays(s.armed[i], t) then i + 1 else i, t);
    }
  }

  // ----- Recovered brackets

  lemma {:induction false} RehashCover(s: State, lot: real, pending: seq<Intent>, armed: seq<Armed>, index: seq<Key>)
    requires Cover(s, lot)
    ensures Cover(Rehash(s, pending, armed, index), lot)
  {
    if Reordered(s, pending, armed, index) {
      var s' := Rehash(s, pending, armed, index);
      SameElements(s.armed, armed);
      forall i | 0 <= i < |armed|
        ensures LotSized(armed[i], lot)
      {
        assert armed[i] in s.armed;
      }
      forall p
        ensures CoveredAt(s'.armed, s'.remaining, p) && Matches(s', p)
      {
        assert CoveredAt(s.armed, s.remaining, p) && Matches(s, p);
        ReorderedArmed(s.armed, armed, p);
        SumReordered(s.armed, armed, ArmedQty(p));
      }
    }
  }

  lemma {:induction false} RehydrateCover(s: State, lot: real, i: Intent, qty: real, entry: real, bracket: Option<nat>)
    requires Cover(s, lot) && Bounded(s) && Modest(Rehydrate(s, i, qty, entry, bracket)) && qty > 0.0
             && IsLots(qty, lot)
    ensures Cover(Rehydrate(s, i, qty, entry, bracket), lot)
  {
    if i.opener != 0 && bracket.Some? {
      var s', o := Rehydrate(s, i, qty, entry, bracket), i.opener;
      var a := Armed(i.(fraction := 1.0), qty, entry, entry, s.nextTag);
      SumAppend(s.log.registered, a.intent, Frac(o));
      assert Sum(s'.log.registered, Frac(o)) <= 1.0 && Shared(s, o);
      FracNonNegative(s.log.fired, o);
      FracNonNegative(s.pending, o);
      ArmedSumPositive(s.armed, o, lot);
      assert !IsArmed(s.armed, o);
      NotArmedSum(s.armed, o);
      forall p
        ensures CoveredAt(s'.armed, s'.remaining, p) && Matches(s', p)
      {
        assert CoveredAt(s.armed, s.remaining, p) && Matches(s, p);
        SumAppend(s.armed, a, ArmedQty(p));
        if p != o && IsArmed(s'.armed, p) {
          var j :| 0 <= j < |s'.armed| && s'.armed[j].intent.opener == p;
          assert s.armed[j].intent.opener == p;
        }
      }
    }
  }

  // ----- Runs

  lemma {:induction false} StepCover(s: State, lot: real, adapter: bool, a: Action)
    requires Cover(s, lot) && lot > DUST && Bounded(s) && Modest(s) && Modest(Step(s, adapter, a)) && InLots(s, lot, a)
    ensures Cover(Step(s, adapter, a), lot)
  {
    match a
    case Add(i) => SameCoverCover(s, Register(s, i), lot);
    case Opened(o, qty, price, placed) => OpenerFillCover(s, lot, adapter, o, qty, price, placed);
    case Closed(o, qty, own) => CloserFillCover(s, lot, adapter, o, qty, own);
    case Market(t) => ScanCover(s, lot, adapter, 0, t);
    case CancelOne(o) => CancelCover(s, lot, adapter, o);
    case CancelFor(strategy, symbol) =>
      var s' := s.(index := IndexWithout(s.index, strategy, symbol));
      SameCoverCover(s, s', lot);
      DropAllCover(s', lot, adapter, OpenersOf(s.index, strategy, symbol));
    case Recover(i, qty, entry, bracket) => RehydrateCover(s, lot, i, qty, entry, bracket);
    case Shuffle(pending, armed, index) => RehashCover(s, lot, pending, armed, index);
  }

  /** Every action is in whole lots and leaves the shares of each opener at one or less. */
  ghost predicate Orderly(adapter: bool, actions: seq<Action>, lot: real) {
    forall i :: 0 <= i < |actions| ==>
      && Positive(actions[i]) && InLots(Run(adapter, actions[..i]), lot, actions[i])
      && Modest(Run(adapter, actions[..i])) && Modest(Step(Run(adapter, actions[..i]), adapter, actions[i]))
  }

  lemma {:induction false} OrderlyPrefix(adapter: bool, actions: seq<Action>, lot: real, n: nat)
    requires Orderly(adapter, actions, lot) && n <= |actions|
    ensures Orderly(adapter, actions[..n], lot) && forall i :: 0 <= i < n ==> Positive(actions[..n][i])
  {
    forall i | 0 <= i < n
      ensures
        && Positive(actions[..n][i]) && InLots(Run(adapter, actions[..n][..i]), lot, actions[..n][i])
        && Modest(Run(adapter, actions[..n][..i]))
        && Modest(Step(Run(adapter, actions[..n][..i]), adapter, actions[..n][i]))
    {
      assert actions[..n][..i] == actions[..i];
      assert Positive(actions[i]);
    }
  }

  lemma {:induction false} RunCover(adapter: bool, actions: seq<Action>, lot: real)
    requires Orderly(adapter, actions, lot) && lot > DUST
    ensures Cover(Run(adapter, actions), lot)
    decreases |actions|
  {
    if actions != [] {
      var n := |actions| - 1;
      OrderlyPrefix(adapter, actions, lot, n);
      RunCover(adapter, actions[..n], lot);
      RunBounded(adapter, actions[..n]);
      assert Positive(actions[n]);
      StepCover(Run(adapter, actions[..n]), lot, adapter, actions[n]);
    }
  }

  /** While an intent of the opener is armed, a closing fill leaves the armed intents alone exactly
      when it is covered by what is in flight. */
  lemma {:induction false} KeepsSiblingsIff(s: State, lot: real, adapter: bool, o: nat, qty: real, own: bool)
    requires Cover(s, lot) && lot > DUST && qty > 0.0 && IsLots(qty, lot) && IsArmed(s.armed, o)
    ensures CloserFill(s, adapter, o, qty, own).armed == s.armed <==> qty <= Amount(s.inFlight, o)
  {
    assert CoveredAt(s.armed, s.remaining, o);
    ArmedSumPositive(s.armed, o, lot);
    var unaccounted := qty - if o in s.inFlight then Min(qty, s.inFlight[o]) else 0.0;
    if o in s.inFlight {
      LotsSum(qty, s.inFlight[o], lot);
    }
    NoLots(lot);
    LotsApart(unaccounted, lot);
    if unaccounted > DUST {
      CancelDisarms(Settle(s, o, qty, own), adapter, o);
      assert IsArmed(s.armed, o);
    }
  }

  lemma {:induction false} CancelDisarms(s: State, adapter: bool, o: nat)
    ensures !IsArmed(Cancel(s, adapter, o).armed, o)
  {
    ArmedWithoutMember(s.armed, o);
  }

  /** Over every orderly run, the fill of one of the manager's own closes leaves all armed intents
      armed, unless another closing fill or a cancel of the opener came in between. */
  lemma {:induction false} OwnFillsKeepSiblings(adapter: bool, actions: seq<Action>, lot: real, o: nat, qty: real)
    requires Orderly(adapter, actions, lot) && lot > DUST && qty > 0.0 && IsLots(qty, lot)
    requires var s := Run(adapter, actions);
      IsArmed(s.armed, o) && o !in s.log.disturbed && qty <= Amount(s.log.outstanding, o)
    ensures CloserFill(Run(adapter, actions), adapter, o, qty, true).armed == Run(adapter, actions).armed
  {
    RunCover(adapter, actions, lot);
    var s := Run(adapter, actions);
    assert Matches(s, o);
    KeepsSiblingsIff(s, lot, adapter, o, qty, true);
  }

  /** A close from elsewhere that takes up all that is in flight: the next fill of an own close, of
      any size, disarms the siblings. */
  lemma {:induction false} StolenFillDisarms(s: State, lot: real, adapter: bool, o: nat, qty: real)
    requires Cover(s, lot) && lot > DUST && qty > DUST && IsArmed(s.armed, o) && Amount(s.inFlight, o) > 0.0
    ensures var s' := CloserFill(s, adapter, o, Amount(s.inFlight, o), false);
      s'.armed == s.armed && !IsArmed(CloserFill(s', adapter, o, qty, true).armed, o)
  {
    var m := s.inFlight[o];
    assert IsLots(m, lot);
    KeepsSiblingsIff(s, lot, adapter, o, m, false);
    assert CoveredAt(s.armed, s.remaining, o);
    ArmedSumPositive(s.armed, o, lot);
    var s' := CloserFill(s, adapter, o, m, false);
    assert s' == Settle(s, o, m, false);
    assert o !in s'.inFlight;
    CancelDisarms(Settle(s', o, qty, true), adapter, o);
  }
}
