/** The life of an exit intent: registered, armed at the entry price that was dealt, grown with further
    fills, fired or cancelled. No share of an opener is lost on the way, and a cancel takes out what it is
    for and nothing else.
 */
module ExitLifecycle {
  import opened Lots
  import opened Sums
  import opened ExitRules
  import opened ExitModel
  import opened ExitSafety
  import opened ExitBrackets
  import opened ExitCover
  import opened ExitTriggers

  // ----- Arming and growing

  /** `level'` is as far from the entry `price` as `level` was from the reference, up to rounding noise. */
  predicate SameDistance(level: Option<real>, level': Option<real>, reference: real, price: real) {
    if level.None? then level'.None?
    else level'.Some? && -0.000000000000001 <= (level'.value - price) - (level.value - reference) <= 0.000000000000001
  }

  /** An intent is armed for its share of the fill at the price of the fill. Levels that were given for a
      reference price keep their distance from the entry; others stay where they are. */
  lemma {:induction false} ArmedAtEntry(i: Intent, qty: real, price: real, tag: nat)
    ensures var a := Arm(i, qty, price, tag);
      && a.entry == price && a.best == price && a.tag == tag
      && a.qty == qty * (if i.fraction <= 0.0 || i.fraction > 1.0 then 1.0 else i.fraction)
      && a.intent == i.(stop := a.intent.stop, target := a.intent.target, reference := a.intent.reference)
      && (i.reference.None? || i.reference.value <= 0.0 ==> a.intent == i)
      && (i.reference.Some? && i.reference.value > 0.0 ==>
            && a.intent.reference == Some(price)
            && SameDistance(i.stop, a.intent.stop, i.reference.value, price)
            && SameDistance(i.target, a.intent.target, i.reference.value, price))
  {
  }

  /** What an armed intent cost to enter. */
  function EntryCost(a: Armed): real {
    a.qty * a.entry
  }

  /** A further fill adds the intent's share at the price of the fill; the entry price is the average. */
  lemma {:induction false} GrownAtAverage(a: Armed, qty: real, price: real)
    requires a.qty >= 0.0 && qty > 0.0
    ensures var share := qty * (if a.intent.fraction <= 0.0 || a.intent.fraction > 1.0 then 1.0 else a.intent.fraction);
      var b := Grown(a, qty, price);
      && b == a.(qty := a.qty + share, entry := b.entry)
      && EntryCost(b) == EntryCost(a) + share * price
  {
    var share := ShareOf(a.intent, qty);
    assert share > 0.0;
    var cost := a.entry * a.qty + price * share;
    assert cost / (a.qty + share) * (a.qty + share) == cost;
  }

  // ----- No share is lost

  /** The shares of an opener that are pending, armed or fired. */
  function Held(s: State, p: nat): real {
    Sum(s.pending, Frac(p)) + Sum(s.armed, ArmedFrac(p)) + Sum(s.log.fired, Frac(p))
  }

  /** What was registered for an opener and is neither pending nor armed nor fired. */
  function Missing(s: State, p: nat): real {
    Sum(s.log.registered, Frac(p)) - Held(s, p)
  }

  lemma {:induction false} RegisterHolds(s: State, i: Intent, p: nat)
    ensures Missing(Register(s, i), p) == Missing(s, p)
    ensures i.opener != 0 ==> Register(s, i).pending == s.pending + [i]
  {
    SumAppend(s.pending, i, Frac(p));
    SumAppend(s.log.registered, i, Frac(p));
  }

  lemma {:induction false} OpenerFillHolds(s: State, adapter: bool, o: nat, qty: real, price: real,
                                           placed: Option<nat>, p: nat)
    requires qty > 0.0
    ensures Missing(OpenerFill(s, adapter, o, qty, price, placed), p) == Missing(s, p)
    ensures forall i :: 0 <= i < |OpenerFill(s, adapter, o, qty, price, placed).pending| ==>
              OpenerFill(s, adapter, o, qty, price, placed).pending[i].opener != o
  {
    var ps := PendingFor(s.pending, o);
    PendingGone(s.pending, o);
    if ps == [] {
      GrowAllFracs(s.armed, o, qty, price, p);
      NonePending(s.pending, o);
    } else {
      PendingForOpener(s.pending, o);
      ArmAllSized(ps, o, qty, price, s.nextTag, []);
      WithoutFrac(s.pending, o, p);
      SumConcat(s.armed, ArmAll(ps, qty, price, s.nextTag), ArmedFrac(p));
    }
  }

  lemma {:induction false} PendingGone(ps: seq<Intent>, o: nat)
    ensures forall i :: 0 <= i < |PendingWithout(ps, o)| ==> PendingWithout(ps, o)[i].opener != o
  {
    if ps != [] {
      PendingGone(ps[1..], o);
    }
  }

  lemma {:induction false} NonePending(ps: seq<Intent>, o: nat)
    requires PendingFor(ps, o) == []
    ensures forall i :: 0 <= i < |ps| ==> ps[i].opener != o
  {
    if ps != [] {
      assert ps[0].opener != o;
      NonePending(ps[1..], o);
    }
  }

  lemma {:induction false} VisitHolds(s: State, lot: real, adapter: bool, i: nat, t: Trigger, p: nat)
    requires Cover(s, lot) && lot > DUST && i < |s.armed|
    ensures Missing(Visit(s, adapter, i, t), p) == Missing(s, p)
  {
    var a := s.armed[i];
    JudgeShares(a, t);
    match Judge(a, t)
    case Keep(b) => SumUpdate(s.armed, i, b, ArmedFrac(p));
    case Fire(b, price) => FiredHolds(s, lot, adapter, i, b, price, p);
  }

  lemma {:induction false} FiredHolds(s: State, lot: real, adapter: bool, i: nat, b: Armed, price: real, p: nat)
    requires Cover(s, lot) && lot > DUST && i < |s.armed| && SameShare(s.armed[i], b)
    ensures Missing(Fired(s, adapter, i, b, price), p) == Missing(s, p)
  {
    GrantCover(s, lot, i, b);
    FiredShrinks(s, adapter, i, b, price);
    SumRemove(s.armed, i, ArmedFrac(p));
    SumAppend(s.log.fired, b.intent, Frac(p));
    FiredLog(s, adapter, i, b, price);
  }

  lemma {:induction false} FiredLog(s: State, adapter: bool, i: nat, b: Armed, price: real)
    requires i < |s.armed| && Granted(s.remaining, b.intent.opener, b.qty) > 0.0
    ensures var s' := Fired(s, adapter, i, b, price);
      s'.pending == s.pending && s'.log.registered == s.log.registered && s'.log.fired == s.log.fired + [b.intent]
  {
  }

  lemma {:induction false} ScanHolds(s: State, lot: real, adapter: bool, i: nat, t: Trigger, p: nat)
    requires Cover(s, lot) && lot > DUST
    ensures Missing(Scan(s, adapter, i, t), p) == Missing(s, p)
    decreases |s.armed| - i
  {
    if i < |s.armed| {
      VisitHolds(s, lot, adapter, i, t, p);
      VisitCover(s, lot, adapter, i, t);
      VisitLength(s, adapter, i, t);
      ScanNext(s, adapter, i, t);
      ScanHolds(Visit(s, adapter, i, t), lot, adapter, if Stays(s.armed[i], t) then i + 1 else i, t, p);
    }
  }

  lemma {:induction false} RehashHolds(s: State, pending: seq<Intent>, armed: seq<Armed>, index: seq<Key>, p: nat)
    ensures Missing(Rehash(s, pending, armed, index), p) == Missing(s, p)
  {
    if Reordered(s, pending, armed, index) {
      SumReordered(s.pending, pending, Frac(p));
      SumReordered(s.armed, armed, ArmedFrac(p));
    }
  }

  lemma {:induction false} RehydrateHolds(s: State, i: Intent, qty: real, entry: real, bracket: Option<nat>, p: nat)
    ensures Missing(Rehydrate(s, i, qty, entry, bracket), p) == Missing(s, p)
  {
    if i.opener != 0 && bracket.Some? {
      var a := Armed(i.(fraction := 1.0), qty, entry, entry, s.nextTag);
      SumAppend(s.armed, a, ArmedFrac(p));
      SumAppend(s.log.registered, a.intent, Frac(p));
    }
  }

  lemma {:induction false} DropHolds(s: State, adapter: bool, o: nat, p: nat)
    ensures p != o ==> Missing(Drop(s, adapter, o), p) == Missing(s, p)
  {
    WithoutFrac(s.pending, o, p);
    ArmedWithoutSums(s.armed, o, p);
  }

  lemma {:induction false} DropAllHolds(s: State, adapter: bool, os: seq<nat>, p: nat)
    requires p !in os
    ensures Missing(DropAll(s, adapter, os), p) == Missing(s, p)
    decreases |os|
  {
    if os != [] {
      var n := |os| - 1;
      DropAllHolds(s, adapter, os[..n], p);
      DropHolds(DropAll(s, adapter, os[..n]), adapter, os[n], p);
    }
  }

  /** An action that may end the intents of an opener other than by firing them: a cancel, or a closing
      fill that is not within what is in flight or comes when nothing remains. */
  predicate MayDrop(s: State, a: Action, p: nat) {
    match a
    case CancelOne(o) => o == p
    case CancelFor(strategy, symbol) => p in OpenersOf(s.index, strategy, symbol)
    case Closed(o, qty, _) => o == p && !(qty <= Amount(s.inFlight, p) && p in s.remaining && s.remaining[p] > 0.0)
    case _ => false
  }

  lemma {:induction false} StepHolds(s: State, lot: real, adapter: bool, a: Action, p: nat)
    requires Cover(s, lot) && lot > DUST && Positive(a) && !MayDrop(s, a, p)
    ensures Missing(Step(s, adapter, a), p) == Missing(s, p)
  {
    match a
    case Add(i) => RegisterHolds(s, i, p);
    case Opened(o, qty, price, placed) => OpenerFillHolds(s, adapter, o, qty, price, placed, p);
    case Closed(o, qty, own) => CancelHolds(Settle(s, o, qty, own), adapter, o, p);
    case Market(t) => ScanHolds(s, lot, adapter, 0, t, p);
    case CancelOne(o) => CancelHolds(s, adapter, o, p);
    case CancelFor(strategy, symbol) =>
      DropAllHolds(s.(index := IndexWithout(s.index, strategy, symbol)), adapter,
                   OpenersOf(s.index, strategy, symbol), p);
    case Recover(i, qty, entry, bracket) => RehydrateHolds(s, i, qty, entry, bracket, p);
    case Shuffle(pending, armed, index) => RehashHolds(s, pending, armed, index, p);
  }

  lemma {:induction false} CancelHolds(s: State, adapter: bool, o: nat, p: nat)
    ensures p != o ==> Missing(Cancel(s, adapter, o), p) == Missing(s, p)
  {
    var name := NameOf(s, o);
    DropHolds(s, adapter, o, p);
    if name.Some? {
      DropHolds(s.(index := Untracked(s.index, name.value)), adapter, o, p);
    }
  }

  ghost predicate NeverDropped(adapter: bool, actions: seq<Action>, p: nat) {
    forall i :: 0 <= i < |actions| ==> !MayDrop(Run(adapter, actions[..i]), actions[i], p)
  }

  lemma {:induction false} NeverDroppedPrefix(adapter: bool, actions: seq<Action>, n: nat, p: nat)
    requires NeverDropped(adapter, actions, p) && n <= |actions|
    ensures NeverDropped(adapter, actions[..n], p)
  {
    forall i | 0 <= i < n
      ensures !MayDrop(Run(adapter, actions[..n][..i]), actions[..n][i], p)
    {
      assert actions[..n][..i] == actions[..i];
      assert !MayDrop(Run(adapter, actions[..i]), actions[i], p);
    }
  }

  /** Over every orderly run, an opener that nothing cancels and whose closing fills are its own has every
      share that was registered for it pending, armed or fired. */
  lemma {:induction false} RunHoldsShares(adapter: bool, actions: seq<Action>, lot: real, p: nat)
    requires Orderly(adapter, actions, lot) && lot > DUST && NeverDropped(adapter, actions, p)
    ensures Held(Run(adapter, actions), p) == Sum(Run(adapter, actions).log.registered, Frac(p))
    decreases |actions|
  {
    if actions != [] {
      var n := |actions| - 1;
      OrderlyPrefix(adapter, actions, lot, n);
      NeverDroppedPrefix(adapter, actions, n, p);
      RunHoldsShares(adapter, actions[..n], lot, p);
      RunCover(adapter, actions[..n], lot);
      LastHolds(adapter, actions, lot, p);
    }
  }

  lemma {:induction false} LastHolds(adapter: bool, actions: seq<Action>, lot: real, p: nat)
    requires Orderly(adapter, actions, lot) && lot > DUST && NeverDropped(adapter, actions, p) && actions != []
    requires Cover(Run(adapter, actions[..|actions| - 1]), lot)
    ensures Missing(Run(adapter, actions), p) == Missing(Run(adapter, actions[..|actions| - 1]), p)
  {
    var n := |actions| - 1;
    assert Positive(actions[n]) && !MayDrop(Run(adapter, actions[..n]), actions[n], p);
    StepHolds(Run(adapter, actions[..n]), lot, adapter, actions[n], p);
  }

  // ----- Cancelling

  /** Nothing of opener `o` is left: no intent, no quantity, no bracket. */
  ghost predicate Gone(s: State, o: nat) {
    && (forall i :: 0 <= i < |s.pending| ==> s.pending[i].opener != o)
    && (forall i :: 0 <= i < |s.armed| ==> s.armed[i].intent.opener != o)
    && o !in s.remaining && o !in s.inFlight && o !in s.handles
  }

  /** Everything of opener `p` is in `s'` as it was in `s`. */
  ghost predicate Untouched(s: State, s': State, p: nat) {
    && PendingFor(s'.pending, p) == PendingFor(s.pending, p)
    && (forall a :: a in s'.armed && a.intent.opener == p <==> a in s.armed && a.intent.opener == p)
    && (p in s'.remaining <==> p in s.remaining) && (p in s.remaining ==> s'.remaining[p] == s.remaining[p])
    && (p in s'.inFlight <==> p in s.inFlight) && (p in s.inFlight ==> s'.inFlight[p] == s.inFlight[p])
    && (p in s'.handles <==> p in s.handles) && (p in s.handles ==> s'.handles[p] == s.handles[p])
  }

  lemma {:induction false} PendingOthers(ps: seq<Intent>, o: nat, p: nat)
    requires p != o
    ensures PendingFor(PendingWithout(ps, o), p) == PendingFor(ps, p)
  {
    if ps != [] {
      PendingOthers(ps[1..], o, p);
      var rest := PendingWithout(ps[1..], o);
      if ps[0].opener == o {
        assert [] + rest == rest;
      } else {
        assert ([ps[0]] + rest)[1..] == rest;
      }
    }
  }

  lemma {:induction false} DropIs(s: State, adapter: bool, o: nat, p: nat)
    ensures Gone(Drop(s, adapter, o), o)
    ensures p != o ==> Untouched(s, Drop(s, adapter, o), p)
  {
    PendingGone(s.pending, o);
    ArmedWithoutMember(s.armed, o);
    if p != o {
      PendingOthers(s.pending, o, p);
      assert forall a :: a in s.armed && a.intent.opener == p ==> a in ArmedWithout(s.armed, o);
    }
  }

  /** A cancel takes out all of its opener and nothing of any other. */
  lemma {:induction false} CancelIs(s: State, adapter: bool, o: nat, p: nat)
    ensures Gone(Cancel(s, adapter, o), o)
    ensures p != o ==> Untouched(s, Cancel(s, adapter, o), p)
  {
    var name := NameOf(s, o);
    DropIs(s, adapter, o, p);
    if name.Some? {
      DropIs(s.(index := Untracked(s.index, name.value)), adapter, o, p);
    }
  }

  lemma {:induction false} DropStaysGone(s: State, adapter: bool, o: nat, p: nat)
    requires Gone(s, p)
    ensures Gone(Drop(s, adapter, o), p)
  {
    PendingMember(s.pending, o);
    ArmedWithoutMember(s.armed, o);
  }

  lemma {:induction false} PendingMember(ps: seq<Intent>, o: nat)
    ensures forall i :: 0 <= i < |PendingWithout(ps, o)| ==> PendingWithout(ps, o)[i] in ps
  {
    if ps != [] {
      PendingMember(ps[1..], o);
    }
  }

  lemma {:induction false} DropAllIs(s: State, adapter: bool, os: seq<nat>, p: nat)
    ensures p in os ==> Gone(DropAll(s, adapter, os), p)
    ensures p !in os ==> Untouched(s, DropAll(s, adapter, os), p)
    decreases |os|
  {
    if os != [] {
      var n := |os| - 1;
      assert os == os[..n] + [os[n]];
      DropAllIs(s, adapter, os[..n], p);
      DropIs(DropAll(s, adapter, os[..n]), adapter, os[n], p);
      if p in os[..n] {
        DropStaysGone(DropAll(s, adapter, os[..n]), adapter, os[n], p);
      }
    }
  }

  predicate Indexed(index: seq<Key>, strategy: string, symbol: string, o: nat) {
    exists i :: 0 <= i < |index| && index[i] == Key(strategy, symbol, o)
  }

  lemma {:induction false} OpenersAre(index: seq<Key>, strategy: string, symbol: string, o: nat)
    ensures o in OpenersOf(index, strategy, symbol) <==> Indexed(index, strategy, symbol, o)
  {
    if index != [] {
      OpenersAre(index[1..], strategy, symbol, o);
      if Indexed(index[1..], strategy, symbol, o) {
        var i :| 0 <= i < |index[1..]| && index[1..][i] == Key(strategy, symbol, o);
        assert index[i + 1] == Key(strategy, symbol, o);
      }
      if Indexed(index, strategy, symbol, o) {
        var i :| 0 <= i < |index| && index[i] == Key(strategy, symbol, o);
        assert i > 0 ==> index[1..][i - 1] == Key(strategy, symbol, o);
      }
    }
  }

  /** A cancel for a strategy and symbol takes out all of every opener indexed under them, and nothing of
      any other opener. */
  lemma {:induction false} BulkCancelIs(s: State, adapter: bool, strategy: string, symbol: string, p: nat)
    ensures var s' := CancelBulk(s, adapter, strategy, symbol);
      && (Indexed(s.index, strategy, symbol, p) ==> Gone(s', p))
      && (!Indexed(s.index, strategy, symbol, p) ==> Untouched(s, s', p))
  {
    OpenersAre(s.index, strategy, symbol, p);
    DropAllIs(s.(index := IndexWithout(s.index, strategy, symbol)), adapter, OpenersOf(s.index, strategy, symbol), p);
  }

  // ----- The index from strategy and symbol to openers

  /** The intents of an opener all bear this strategy and symbol, and it has some. */
  ghost predicate Bears(s: State, o: nat, strategy: string, symbol: string) {
    && (forall i :: i in s.pending && i.opener == o ==> IsOf(i, strategy, symbol))
    && (forall a :: a in s.armed && a.intent.opener == o ==> IsOf(a.intent, strategy, symbol))
    && ((exists i :: i in s.pending && i.opener == o) || IsArmed(s.armed, o))
  }

  lemma {:induction false} NameIs(s: State, o: nat, strategy: string, symbol: string)
    requires Bears(s, o, strategy, symbol)
    ensures NameOf(s, o) == Some(Key(strategy, symbol, o))
  {
    var ps := PendingFor(s.pending, o);
    PendingForMember(s.pending, o);
    if ps != [] {
      assert ps[0] in s.pending && ps[0].opener == o;
    } else {
      NonePending(s.pending, o);
      FirstArmedIs(s.armed, o, strategy, symbol);
    }
  }

  lemma {:induction false} FirstArmedIs(xs: seq<Armed>, o: nat, strategy: string, symbol: string)
    requires IsArmed(xs, o) && forall a :: a in xs && a.intent.opener == o ==> IsOf(a.intent, strategy, symbol)
    ensures FirstArmed(xs, o) == Some(Key(strategy, symbol, o))
  {
    if xs[0].intent.opener != o {
      var i :| 0 <= i < |xs| && xs[i].intent.opener == o;
      assert xs[1..][i - 1].intent.opener == o;
      FirstArmedIs(xs[1..], o, strategy, symbol);
    }
  }

  lemma {:induction false} UntrackedIs(index: seq<Key>, k: Key, other: Key)
    ensures other in Untracked(index, k) <==> other in index && other != k
  {
    if index != [] {
      UntrackedIs(index[1..], k, other);
    }
  }

  /** A cancel of an opener takes its entry out of the index, if it has a name, and no other entry. */
  lemma {:induction false} CancelUntracks(s: State, adapter: bool, o: nat, strategy: string, symbol: string, k: Key)
    requires Bears(s, o, strategy, symbol) && (strategy != "" || symbol != "")
    ensures k in Cancel(s, adapter, o).index <==> k in s.index && k != Key(strategy, symbol, o)
  {
    NameIs(s, o, strategy, symbol);
    UntrackedIs(s.index, Key(strategy, symbol, o), k);
  }

  lemma {:induction false} IndexLeft(index: seq<Key>, strategy: string, symbol: string, k: Key)
    ensures k in IndexWithout(index, strategy, symbol) <==> k in index && (k.strategy != strategy || k.symbol != symbol)
  {
    if index != [] {
      IndexLeft(index[1..], strategy, symbol, k);
    }
  }

  lemma {:induction false} DropAllIndex(s: State, adapter: bool, os: seq<nat>)
    ensures DropAll(s, adapter, os).index == s.index
    decreases |os|
  {
    if os != [] {
      DropAllIndex(s, adapter, os[..|os| - 1]);
    }
  }

  /** A cancel for a strategy and symbol takes all entries under them out of the index and no other. */
  lemma {:induction false} BulkUntracks(s: State, adapter: bool, strategy: string, symbol: string, k: Key)
    ensures k in CancelBulk(s, adapter, strategy, symbol).index <==>
            k in s.index && (k.strategy != strategy || k.symbol != symbol)
  {
    IndexLeft(s.index, strategy, symbol, k);
    DropAllIndex(s.(index := IndexWithout(s.index, strategy, symbol)), adapter, OpenersOf(s.index, strategy, symbol));
  }

  /** A registered intent is indexed, and so is a recovered one that has a name; nothing else is added. */
  lemma {:induction false} AddedIsIndexed(s: State, i: Intent, qty: real, entry: real, bracket: nat, k: Key)
    requires i.opener != 0
    ensures k in Register(s, i).index <==> k in s.index || k == Key(i.strategy, i.symbol, i.opener)
    ensures k in Rehydrate(s, i, qty, entry, Some(bracket)).index <==>
            k in s.index || (k == Key(i.strategy, i.symbol, i.opener) && !(i.strategy == "" && i.symbol == ""))
  {
  }

  predicate IsOf(i: Intent, strategy: string, symbol: string) {
    i.strategy == strategy && i.symbol == symbol
  }

  /** No intent of the strategy and symbol is pending or armed. */
  ghost predicate NoneOf(s: State, strategy: string, symbol: string) {
    && (forall i :: i in s.pending ==> !IsOf(i, strategy, symbol))
    && (forall a :: a in s.armed ==> !IsOf(a.intent, strategy, symbol))
  }

  /** Every intent of the strategy and symbol is of an opener that is indexed under them. */
  ghost predicate AllIndexed(s: State, strategy: string, symbol: string) {
    && (forall i :: i in s.pending && IsOf(i, strategy, symbol) ==> Indexed(s.index, strategy, symbol, i.opener))
    && (forall a :: a in s.armed && IsOf(a.intent, strategy, symbol) ==>
          Indexed(s.index, strategy, symbol, a.intent.opener))
  }

  lemma {:induction false} PendingForHas(ps: seq<Intent>, i: Intent)
    ensures i in PendingFor(ps, i.opener) <==> i in ps
  {
    if ps != [] {
      PendingForHas(ps[1..], i);
    }
  }

  lemma {:induction false} DropAllSelects(s: State, adapter: bool, os: seq<nat>)
    ensures forall i :: i in DropAll(s, adapter, os).pending ==> i in s.pending
    ensures forall a :: a in DropAll(s, adapter, os).armed ==> a in s.armed
    decreases |os|
  {
    if os != [] {
      var n := |os| - 1;
      var mid := DropAll(s, adapter, os[..n]);
      DropAllSelects(s, adapter, os[..n]);
      PendingMember(mid.pending, os[n]);
      ArmedWithoutMember(mid.armed, os[n]);
    }
  }

  /** A cancel for a strategy and symbol removes every intent of theirs exactly when all of them are of
      openers indexed under them. */
  lemma {:induction false} BulkCancelsAllIff(s: State, adapter: bool, strategy: string, symbol: string)
    ensures NoneOf(CancelBulk(s, adapter, strategy, symbol), strategy, symbol) <==> AllIndexed(s, strategy, symbol)
  {
    var s' := CancelBulk(s, adapter, strategy, symbol);
    DropAllSelects(s.(index := IndexWithout(s.index, strategy, symbol)), adapter,
                   OpenersOf(s.index, strategy, symbol));
    forall p
      ensures Indexed(s.index, strategy, symbol, p) ==> Gone(s', p)
      ensures !Indexed(s.index, strategy, symbol, p) ==> Untouched(s, s', p)
    {
      BulkCancelIs(s, adapter, strategy, symbol, p);
    }
    forall i | i in s.pending
      ensures Indexed(s.index, strategy, symbol, i.opener) <==> i !in s'.pending
    {
      PendingForHas(s.pending, i);
      PendingForHas(s'.pending, i);
    }
    forall a | a in s.armed
      ensures Indexed(s.index, strategy, symbol, a.intent.opener) <==> a !in s'.armed
    {
    }
  }

  /** A long of one opener, to be closed in full at 110. */
  const EXIT_AT_110 := Intent(1, "S", "X", true, 1.0, None, Some(110.0), None, None, None)

  /** Registered, filled for 2 at 100, and registered again. */
  function Again(adapter: bool): State {
    Step(Step(Step(START, adapter, Add(EXIT_AT_110)), adapter, Opened(1, 2.0, 100.0, None)), adapter, Add(EXIT_AT_110))
  }

  lemma {:induction false} ArmedOnce(adapter: bool)
    ensures var s := Step(Step(START, adapter, Add(EXIT_AT_110)), adapter, Opened(1, 2.0, 100.0, None));
      && s.armed == [Arm(EXIT_AT_110, 2.0, 100.0, 0)] && s.pending == [] && s.index == [Key("S", "X", 1)]
      && s.remaining == map[1 := 2.0]
  {
    var i := EXIT_AT_110;
    var s := Step(START, adapter, Add(i));
    assert s.pending == [i] && [i][1..] == [];
    assert PendingFor(s.pending, 1) == [i] && PendingWithout(s.pending, 1) == [];
    assert ArmAll([i], 2.0, 100.0, 0) == [Arm(i, 2.0, 100.0, 0)];
  }

  /** An intent that is registered after its opener was armed is lost from the index when the armed one
      fires, and the cancel for its strategy and symbol leaves it pending. */
  lemma {:induction false} LatePendingSurvives(adapter: bool)
    ensures var s := Step(Step(Again(adapter), adapter, Market(Tick("X", 110.0, 0))), adapter, CancelFor("S", "X"));
      s.pending == [EXIT_AT_110] && IsOf(EXIT_AT_110, "S", "X")
  {
    ArmedOnce(adapter);
    var s, a := Again(adapter), Arm(EXIT_AT_110, 2.0, 100.0, 0);
    assert s.pending == [EXIT_AT_110] && s.index == [Key("S", "X", 1), Key("S", "X", 1)] && s.armed == [a];
    LateFire(s, adapter, a, Tick("X", 110.0, 0));
  }

  lemma {:induction false} LateFire(s: State, adapter: bool, a: Armed, t: Trigger)
    requires s.armed == [a] && a.intent.symbol == t.symbol && Usable(t) && Met(a, t)
    requires s.index == [Key(a.intent.strategy, a.intent.symbol, a.intent.opener),
                         Key(a.intent.strategy, a.intent.symbol, a.intent.opener)]
    requires Granted(s.remaining, a.intent.opener, a.qty) > 0.0
    ensures var s' := OnTrigger(s, adapter, t);
      && s'.pending == s.pending && s'.index == []
      && CancelBulk(s', adapter, a.intent.strategy, a.intent.symbol).pending == s.pending
  {
    JudgeIs(a, t);
    JudgeRatchets(a, t);
    var b, price := Judge(a, t).armed, Judge(a, t).price;
    LastFire(s, adapter, b, price);
    ScanNext(s, adapter, 0, t);
    var s' := Fired(s, adapter, 0, b, price);
    assert Scan(s', adapter, 0, t) == s';
  }

  lemma {:induction false} LastFire(s: State, adapter: bool, b: Armed, price: real)
    requires |s.armed| == 1 && Granted(s.remaining, b.intent.opener, b.qty) > 0.0
    requires var k := Key(b.intent.strategy, b.intent.symbol, b.intent.opener); s.index == [k, k]
    ensures var s' := Fired(s, adapter, 0, b, price); s'.armed == [] && s'.index == [] && s'.pending == s.pending
  {
    var k := Key(b.intent.strategy, b.intent.symbol, b.intent.opener);
    var two, one := [k, k], [k];
    assert two[1..] == one && one[1..] == [];
    assert Untracked(one, k) == [];
    assert Untracked(two, k) == [] + Untracked(two[1..], k);
    assert RemoveAt(s.armed, 0) == [];
  }
}
