/** The exit manager object: its methods work in place on the containers and are proved against the
    steps of the model. */
module ExitManager {
  import opened Lots
  import opened ExitRules
  import opened ExitModel
  import Runs = ExitSafety

  // ----- Loops over the multimaps, from the front

  lemma {:induction false} PendingWithoutMore(ps: seq<Intent>, x: Intent, o: nat)
    ensures PendingWithout(ps + [x], o) == PendingWithout(ps, o) + if x.opener == o then [] else [x]
  {
    if ps == [] {
      assert ps + [x] == [x] && [x][1..] == [];
    } else {
      assert (ps + [x])[1..] == ps[1..] + [x];
      PendingWithoutMore(ps[1..], x, o);
    }
  }

  lemma {:induction false} NonePending(ps: seq<Intent>, o: nat)
    requires PendingFor(ps, o) == []
    ensures PendingWithout(ps, o) == ps
  {
    if ps != [] {
      assert ps[0].opener != o;
      NonePending(ps[1..], o);
    }
  }

  lemma {:induction false} ArmAllMore(ps: seq<Intent>, x: Intent, qty: real, price: real, tag: nat)
    ensures ArmAll(ps + [x], qty, price, tag) == ArmAll(ps, qty, price, tag) + [Arm(x, qty, price, tag + |ps|)]
  {
    if ps == [] {
      assert ps + [x] == [x] && [x][1..] == [];
    } else {
      assert (ps + [x])[1..] == ps[1..] + [x];
      ArmAllMore(ps[1..], x, qty, price, tag + 1);
    }
  }

  lemma {:induction false} GrowAllAt(xs: seq<Armed>, o: nat, qty: real, price: real)
    ensures |GrowAll(xs, o, qty, price)| == |xs|
    ensures forall i :: 0 <= i < |xs| ==>
      GrowAll(xs, o, qty, price)[i] == if xs[i].intent.opener == o then Grown(xs[i], qty, price) else xs[i]
  {
    if xs != [] {
      GrowAllAt(xs[1..], o, qty, price);
    }
  }

  lemma {:induction false} ArmedWithoutMore(xs: seq<Armed>, x: Armed, o: nat)
    ensures ArmedWithout(xs + [x], o) == ArmedWithout(xs, o) + if x.intent.opener == o then [] else [x]
  {
    if xs == [] {
      assert xs + [x] == [x] && [x][1..] == [];
    } else {
      assert (xs + [x])[1..] == xs[1..] + [x];
      ArmedWithoutMore(xs[1..], x, o);
    }
  }

  lemma {:induction false} UntrackedMore(ks: seq<Key>, x: Key, k: Key)
    ensures Untracked(ks + [x], k) == Untracked(ks, k) + if x == k then [] else [x]
  {
    if ks == [] {
      assert ks + [x] == [x] && [x][1..] == [];
    } else {
      assert (ks + [x])[1..] == ks[1..] + [x];
      UntrackedMore(ks[1..], x, k);
    }
  }

  lemma {:induction false} ScanUnfolds(s: State, adapter: bool, i: nat, t: Trigger)
    requires i < |s.armed|
    ensures Scan(s, adapter, i, t)
            == Scan(Visit(s, adapter, i, t), adapter, if Stays(s.armed[i], t) then i + 1 else i, t)
    ensures |Visit(s, adapter, i, t).armed| == if Stays(s.armed[i], t) then |s.armed| else |s.armed| - 1
  {
    if !Stays(s.armed[i], t) {
      FiredShrinks(s, adapter, i, Judge(s.armed[i], t).armed, Judge(s.armed[i], t).price);
    }
  }

  class ExitManager {
    const adapter: bool
    var pending: seq<Intent>
    var armed: seq<Armed>
    var remaining: map<nat, real>
    var inFlight: map<nat, real>
    var index: seq<Key>
    var handles: map<nat, nat>
    var nextTag: nat
    ghost var log: Log

    ghost function Now(): State
      reads this
    {
      State(pending, armed, remaining, inFlight, index, handles, nextTag, log)
    }

    constructor (adapter: bool)
      ensures Now() == START && this.adapter == adapter
    {
      this.adapter := adapter;
      pending, armed, remaining, inFlight, index, handles := [], [], map[], map[], [], map[];
      nextTag := 0;
      log := START.log;
    }

    /** `register_pending` */
    method RegisterPending(i: Intent)
      modifies this
      ensures Now() == Register(old(Now()), i)
    {
      if i.opener == 0 {
        return;
      }
      index := index + [Key(i.strategy, i.symbol, i.opener)];
      pending := pending + [i];
      log := log.(registered := log.registered + [i]);
    }

    // ----- Opener fills

    /** Grows the armed intents of an opener after a further fill. */
    method GrowArmed(o: nat, qty: real, price: real)
      modifies this`armed
      ensures armed == GrowAll(old(armed), o, qty, price)
    {
      ghost var before := armed;
      GrowAllAt(before, o, qty, price);
      for i := 0 to |armed|
        invariant |armed| == |before|
        invariant forall j :: 0 <= j < i ==> armed[j] == GrowAll(before, o, qty, price)[j]
        invariant forall j :: i <= j < |armed| ==> armed[j] == before[j]
      {
        var a := armed[i];
        if a.intent.opener == o {
          var add := ShareOf(a.intent, qty);
          if add > 0.0 {
            a := a.(entry := Rolled(a, add, price), qty := a.qty + add);
          }
          armed := armed[i := a];
        }
      }
    }

    /** Turns the pending intents of an opener into armed ones. */
    method PromotePending(o: nat, qty: real, price: real) returns (count: nat)
      modifies this`pending, this`armed, this`nextTag
      ensures count == |PendingFor(old(pending), o)|
      ensures armed == old(armed) + ArmAll(PendingFor(old(pending), o), qty, price, old(nextTag))
      ensures pending == PendingWithout(old(pending), o) && nextTag == old(nextTag) + count
    {
      var ps := PendingFor(pending, o);
      count := |ps|;
      for i := 0 to count
        invariant armed == old(armed) + ArmAll(ps[..i], qty, price, old(nextTag))
        invariant nextTag == old(nextTag) + i && pending == old(pending)
      {
        assert ps[..i + 1] == ps[..i] + [ps[i]];
        ArmAllMore(ps[..i], ps[i], qty, price, old(nextTag));
        armed := armed + [Arm(ps[i], qty, price, nextTag)];
        nextTag := nextTag + 1;
      }
      assert ps[..count] == ps;
      ErasePending(o);
    }

    /** `on_fill` for the opener itself; `placed` is the bracket the venue answers with, if any. */
    method OnOpenerFill(o: nat, qty: real, price: real, placed: Option<nat>)
      modifies this
      ensures Now() == OpenerFill(old(Now()), adapter, o, qty, price, placed)
    {
      ghost var s := Now();
      var count := PromotePending(o, qty, price);
      log := log.(fills := log.fills + [Filled(o, qty)]);
      remaining := remaining[o := Amount(remaining, o) + qty];
      if count == 0 {
        NonePending(s.pending, o);
        assert armed == s.armed + [] == s.armed;
        GrowArmed(o, qty, price);
        return;
      }
      if adapter && placed.Some? {
        InstallHandle(o, placed.value);
      }
    }

    method InstallHandle(o: nat, bracket: nat)
      modifies this`handles
      ensures Now() == Install(old(Now()), o, bracket)
    {
      if o !in handles {
        handles := handles[o := bracket];
      }
    }

    // ----- Cancels and closing fills

    /** `release_venue_bracket` */
    method ReleaseVenueBracket(o: nat)
      modifies this`handles, this`log
      ensures Now() == Release(old(Now()), adapter, o)
    {
      if o !in handles {
        return;
      }
      var bracket := handles[o];
      handles := handles - {o};
      if adapter {
        log := log.(cancelled := log.cancelled + [bracket]);
      }
    }

    /** `untrack_opener` */
    method UntrackOpener(k: Key)
      modifies this`index
      ensures index == Untracked(old(index), k)
    {
      var all := index;
      var kept: seq<Key> := [];
      for i := 0 to |all|
        invariant kept == Untracked(all[..i], k)
      {
        assert all[..i + 1] == all[..i] + [all[i]];
        UntrackedMore(all[..i], all[i], k);
        if all[i] != k {
          kept := kept + [all[i]];
        }
      }
      assert all[..|all|] == all;
      index := kept;
    }

    method EraseArmed(o: nat)
      modifies this`armed
      ensures armed == ArmedWithout(old(armed), o)
    {
      var all := armed;
      var kept: seq<Armed> := [];
      for i := 0 to |all|
        invariant kept == ArmedWithout(all[..i], o)
      {
        assert all[..i + 1] == all[..i] + [all[i]];
        ArmedWithoutMore(all[..i], all[i], o);
        if all[i].intent.opener != o {
          kept := kept + [all[i]];
        }
      }
      assert all[..|all|] == all;
      armed := kept;
    }

    method ErasePending(o: nat)
      modifies this`pending
      ensures pending == PendingWithout(old(pending), o)
    {
      var all := pending;
      var kept: seq<Intent> := [];
      for i := 0 to |all|
        invariant kept == PendingWithout(all[..i], o)
      {
        assert all[..i + 1] == all[..i] + [all[i]];
        PendingWithoutMore(all[..i], all[i], o);
        if all[i].opener != o {
          kept := kept + [all[i]];
        }
      }
      assert all[..|all|] == all;
      pending := kept;
    }

    method DropOpener(o: nat)
      modifies this
      ensures Now() == Drop(old(Now()), adapter, o)
    {
      ErasePending(o);
      EraseArmed(o);
      remaining := remaining - {o};
      inFlight := inFlight - {o};
      log := log.(outstanding := log.outstanding - {o}, disturbed := log.disturbed - {o});
      ReleaseVenueBracket(o);
    }

    /** `cancel` of one opener */
    method CancelOpener(o: nat)
      modifies this
      ensures Now() == Cancel(old(Now()), adapter, o)
    {
      var name := FindName(o);
      if name.Some? && (name.value.strategy != "" || name.value.symbol != "") {
        UntrackOpener(name.value);
      }
      DropOpener(o);
    }

    method FindName(o: nat) returns (name: Option<Key>)
      ensures name == NameOf(Now(), o)
    {
      var ps := PendingFor(pending, o);
      if ps != [] {
        return Some(Key(ps[0].strategy, ps[0].symbol, o));
      }
      name := FirstArmed(armed, o);
    }

    /** `cancel` of everything of a strategy and symbol */
    method CancelFor(strategy: string, symbol: string)
      modifies this
      ensures Now() == CancelBulk(old(Now()), adapter, strategy, symbol)
    {
      var openers := OpenersOf(index, strategy, symbol);
      index := IndexWithout(index, strategy, symbol);
      ghost var s := Now();
      for i := 0 to |openers|
        invariant Now() == DropAll(s, adapter, openers[..i])
      {
        assert openers[..i + 1][..i] == openers[..i];
        DropOpener(openers[i]);
      }
      assert openers[..|openers|] == openers;
    }

    /** `on_fill` for a fill that closes an opener */
    method OnCloserFill(o: nat, qty: real, ghost own: bool)
      modifies this
      ensures Now() == CloserFill(old(Now()), adapter, o, qty, own)
    {
      ghost var s := Now();
      var unaccounted := qty;
      if o in inFlight {
        var matched := Min(unaccounted, inFlight[o]);
        inFlight := inFlight[o := inFlight[o] - matched];
        unaccounted := unaccounted - matched;
        if inFlight[o] <= DUST {
          inFlight := inFlight - {o};
        }
      }
      assert inFlight == Matched(s.inFlight, o, qty);
      log := if own then log.(outstanding := log.outstanding[o := Amount(log.outstanding, o) - qty])
             else log.(disturbed := log.disturbed + {o});
      assert Now() == Settle(s, o, qty, own);
      if unaccounted > DUST {
        CancelOpener(o);
        return;
      }
      if o !in remaining || remaining[o] <= 0.0 {
        CancelOpener(o);
      }
    }

    // ----- Firing

    /** `consume_opener_qty` */
    method ConsumeOpenerQty(o: nat, requested: real) returns (qty: real)
      modifies this`remaining
      ensures qty == Granted(old(remaining), o, requested) && remaining == Consumed(old(remaining), o, requested)
    {
      if requested <= 0.0 {
        return 0.0;
      }
      if o !in remaining {
        return requested;
      }
      qty := Min(requested, remaining[o]);
      var left := remaining[o] - qty;
      remaining := remaining[o := if Abs(left) < DUST then 0.0 else left];
    }

    method RetireOpener(a: Armed)
      modifies this
      ensures Now() == Retire(old(Now()), adapter, a) && log.closes == old(log).closes
    {
      UntrackOpener(Key(a.intent.strategy, a.intent.symbol, a.intent.opener));
      ReleaseVenueBracket(a.intent.opener);
    }

    /** The armed intent at `i` fires as `a`. */
    method FireAt(i: nat, a: Armed, price: real) returns (closes: seq<Close>)
      requires i < |armed|
      modifies this
      ensures Now() == Fired(old(Now()), adapter, i, a, price) && log.closes == old(log).closes + closes
    {
      var o := a.intent.opener;
      var qty := ConsumeOpenerQty(o, a.qty);
      armed := RemoveAt(armed, i);
      closes := [];
      if qty <= 0.0 {
        if !IsArmed(armed, o) {
          RetireOpener(a);
        }
      } else {
        closes := [Close(o, qty, price)];
        EmitClose(a, qty, price);
        var flat := o !in remaining || remaining[o] <= 0.0;
        if flat || !IsArmed(armed, o) {
          remaining := remaining - {o};
          RetireOpener(a);
        }
      }
    }

    /** Records a close as in flight and gives up the venue bracket. */
    method EmitClose(a: Armed, qty: real, price: real)
      modifies this`inFlight, this`handles, this`log
      ensures var s, o := old(Now()), a.intent.opener;
        Now() == Release(s.(inFlight := s.inFlight[o := Amount(s.inFlight, o) + qty],
                            log := s.log.(closes := s.log.closes + [Close(o, qty, price)],
                                          fired := s.log.fired + [a.intent],
                                          outstanding :=
                                            s.log.outstanding[o := Amount(s.log.outstanding, o) + qty])), adapter, o)
    {
      var o := a.intent.opener;
      inFlight := inFlight[o := Amount(inFlight, o) + qty];
      log := log.(closes := log.closes + [Close(o, qty, price)], fired := log.fired + [a.intent],
                  outstanding := log.outstanding[o := Amount(log.outstanding, o) + qty]);
      ReleaseVenueBracket(o);
    }

    /** One turn of the loop in `on_price` and `on_bar` */
    method VisitAt(i: nat, t: Trigger) returns (kept: bool, closes: seq<Close>)
      requires i < |armed|
      modifies this
      ensures Now() == Visit(old(Now()), adapter, i, t) && log.closes == old(log).closes + closes
      ensures kept == Stays(old(armed)[i], t)
    {
      var a := armed[i];
      closes := [];
      if a.intent.symbol != t.symbol {
        return true, closes;
      }
      var v := Judge(a, t);
      kept := v.Keep?;
      if kept {
        armed := armed[i := v.armed];
      } else {
        closes := FireAt(i, v.armed, v.price);
      }
    }

    /** A turn and where the loop goes on. */
    method Turn(i: nat, t: Trigger) returns (k: nat, closes: seq<Close>)
      requires i < |armed|
      modifies this
      ensures k <= |armed| && |armed| - k < old(|armed|) - i
      ensures Scan(Now(), adapter, k, t) == Scan(old(Now()), adapter, i, t) && log.closes == old(log).closes + closes
    {
      ScanUnfolds(Now(), adapter, i, t);
      var kept;
      kept, closes := VisitAt(i, t);
      k := if kept then i + 1 else i;
    }

    method ScanArmed(t: Trigger) returns (closes: seq<Close>)
      modifies this
      ensures Now() == Scan(old(Now()), adapter, 0, t) && log.closes == old(log).closes + closes
    {
      closes := [];
      var i := 0;
      while i < |armed|
        invariant 0 <= i <= |armed|
        invariant Scan(Now(), adapter, i, t) == Scan(old(Now()), adapter, 0, t)
        invariant log.closes == old(log).closes + closes
        decreases |armed| - i
      {
        var more;
        i, more := Turn(i, t);
        closes := closes + more;
      }
    }

    /** `on_price` */
    method OnPrice(symbol: string, price: real, ts: int) returns (closes: seq<Close>)
      modifies this
      ensures Now() == OnTrigger(old(Now()), adapter, Tick(symbol, price, ts)) && log.closes == old(log).closes + closes
    {
      if price <= 0.0 {
        return [];
      }
      closes := ScanArmed(Tick(symbol, price, ts));
    }

    /** `on_bar` */
    method OnBar(symbol: string, open: real, low: real, high: real, close: real, ts: int) returns (closes: seq<Close>)
      modifies this
      ensures Now() == OnTrigger(old(Now()), adapter, Bar(symbol, open, low, high, close, ts))
              && log.closes == old(log).closes + closes
    {
      if low <= 0.0 || high <= 0.0 || close <= 0.0 {
        return [];
      }
      closes := ScanArmed(Bar(symbol, open, low, high, close, ts));
    }

    /** `rehydrate` */
    method Rehydrated(i: Intent, qty: real, entry: real, bracket: Option<nat>)
      modifies this
      ensures Now() == Rehydrate(old(Now()), i, qty, entry, bracket)
    {
      if i.opener == 0 || bracket.None? {
        return;
      }
      var a := Armed(i.(fraction := 1.0), qty, entry, entry, nextTag);
      armed := armed + [a];
      nextTag := nextTag + 1;
      remaining := remaining[i.opener := qty];
      if i.strategy != "" || i.symbol != "" {
        index := index + [Key(i.strategy, i.symbol, i.opener)];
      }
      log := log.(registered := log.registered + [a.intent], fills := log.fills + [Filled(i.opener, qty)]);
      InstallHandle(i.opener, bracket.value);
    }

    /** The hash containers take another order. */
    method Rearrange(ps: seq<Intent>, xs: seq<Armed>, ks: seq<Key>)
      modifies this`pending, this`armed, this`index
      ensures Now() == Rehash(old(Now()), ps, xs, ks)
    {
      if Reordered(State(pending, armed, remaining, inFlight, index, handles, nextTag, START.log), ps, xs, ks) {
        pending, armed, index := ps, xs, ks;
      }
    }

    // ----- Runs

    method Act(a: Runs.Action)
      modifies this
      ensures Now() == Runs.Step(old(Now()), adapter, a)
    {
      match a {
        case Add(i) =>
          RegisterPending(i);
        case Opened(o, qty, price, placed) =>
          OnOpenerFill(o, qty, price, placed);
        case Closed(o, qty, own) =>
          OnCloserFill(o, qty, own);
        case Market(t) =>
          var closes := OnMarket(t);
        case CancelOne(o) =>
          CancelOpener(o);
        case CancelFor(strategy, symbol) =>
          CancelFor(strategy, symbol);
        case Recover(i, qty, entry, bracket) =>
          Rehydrated(i, qty, entry, bracket);
        case Shuffle(ps, xs, ks) =>
          Rearrange(ps, xs, ks);
      }
    }

    method OnMarket(t: Trigger) returns (closes: seq<Close>)
      modifies this
      ensures Now() == OnTrigger(old(Now()), adapter, t)
    {
      match t {
        case Tick(symbol, price, ts) =>
          closes := OnPrice(symbol, price, ts);
        case Bar(symbol, open, low, high, close, ts) =>
          closes := OnBar(symbol, open, low, high, close, ts);
      }
    }

    /** A run of the object is a run of the model, so no opener is closed beyond its registered share
        of what was filled. */
    method ActAll(actions: seq<Runs.Action>)
      requires Now() == START && forall i :: 0 <= i < |actions| ==> Runs.Positive(actions[i])
      modifies this
      ensures Now() == Runs.Run(adapter, actions) && Runs.Bounded(Now())
    {
      for i := 0 to |actions|
        invariant Now() == Runs.Run(adapter, actions[..i])
      {
        assert actions[..i + 1][..i] == actions[..i];
        Act(actions[i]);
      }
      assert actions[..|actions|] == actions;
      Runs.RunBounded(adapter, actions);
    }
  }
}
