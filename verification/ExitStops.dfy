/** Stops over every run of the exit manager: an armed intent's stop only moves in its favour. */
module ExitStops {
  import opened ExitRules
  import opened ExitModel
  import opened ExitSafety
  import opened ExitBrackets

  /** `b` is `a` some steps later. */
  predicate Follows(a: Armed, b: Armed) {
    && a.tag == b.tag && a.intent.closeSell == b.intent.closeSell
    && Ratchets(a.intent.closeSell, a.intent.stop, b.intent.stop)
  }

  /** `b` was armed since, or is a later form of one of `xs`. */
  predicate From(xs: seq<Armed>, next: nat, b: Armed) {
    b.tag >= next || exists i :: 0 <= i < |xs| && Follows(xs[i], b)
  }

  predicate AllFrom(xs: seq<Armed>, next: nat, ys: seq<Armed>) {
    forall j :: 0 <= j < |ys| ==> From(xs, next, ys[j])
  }

  predicate Tags(xs: seq<Armed>, next: nat) {
    && (forall i :: 0 <= i < |xs| ==> xs[i].tag < next)
    && (forall i, j :: 0 <= i < j < |xs| ==> xs[i].tag != xs[j].tag)
  }

  /** The later state: fresh tags, and every armed intent is new or follows an earlier one. */
  predicate Descends(s: State, s': State) {
    s.nextTag <= s'.nextTag && AllFrom(s.armed, s.nextTag, s'.armed) && Tags(s'.armed, s'.nextTag)
  }

  lemma {:induction false} FromSelf(xs: seq<Armed>, next: nat)
    ensures AllFrom(xs, next, xs)
  {
    forall j | 0 <= j < |xs|
      ensures From(xs, next, xs[j])
    {
      assert Follows(xs[j], xs[j]);
    }
  }

  lemma {:induction false} FromChain(xs: seq<Armed>, next: nat, ys: seq<Armed>, next': nat, c: Armed)
    requires next <= next' && AllFrom(xs, next, ys) && From(ys, next', c)
    ensures From(xs, next, c)
  {
    if c.tag < next' {
      var j :| 0 <= j < |ys| && Follows(ys[j], c);
      if ys[j].tag < next {
        var i :| 0 <= i < |xs| && Follows(xs[i], ys[j]);
        RatchetsChain(c.intent.closeSell, xs[i].intent.stop, ys[j].intent.stop, c.intent.stop);
        assert Follows(xs[i], c);
      }
    }
  }

  lemma {:induction false} DescendsChain(s: State, s': State, s'': State)
    requires Descends(s, s') && Descends(s', s'')
    ensures Descends(s, s'')
  {
    forall j | 0 <= j < |s''.armed|
      ensures From(s.armed, s.nextTag, s''.armed[j])
    {
      FromChain(s.armed, s.nextTag, s'.armed, s'.nextTag, s''.armed[j]);
    }
  }

  lemma {:induction false} WithoutTags(xs: seq<Armed>, o: nat, next: nat)
    requires Tags(xs, next)
    ensures Tags(ArmedWithout(xs, o), next)
  {
    if xs != [] {
      var rest := ArmedWithout(xs[1..], o);
      WithoutTags(xs[1..], o, next);
      ArmedWithoutMember(xs[1..], o);
      forall j | 0 <= j < |rest|
        ensures rest[j].tag != xs[0].tag
      {
        assert rest[j] in xs[1..];
        var k :| 0 <= k < |xs[1..]| && xs[1..][k] == rest[j];
        assert xs[k + 1] == rest[j];
      }
    }
  }

  /** Dropping the intents of an opener leaves the others as they are. */
  lemma {:induction false} WithoutDescends(s: State, s': State, o: nat)
    requires Tags(s.armed, s.nextTag) && s'.armed == ArmedWithout(s.armed, o) && s'.nextTag == s.nextTag
    ensures Descends(s, s')
  {
    WithoutTags(s.armed, o, s.nextTag);
    ArmedWithoutMember(s.armed, o);
    forall j | 0 <= j < |s'.armed|
      ensures From(s.armed, s.nextTag, s'.armed[j])
    {
      assert s'.armed[j] in s.armed;
      var i :| 0 <= i < |s.armed| && s.armed[i] == s'.armed[j];
      assert Follows(s.armed[i], s'.armed[j]);
    }
  }

  lemma {:induction false} DropDescends(s: State, adapter: bool, o: nat)
    requires Tags(s.armed, s.nextTag)
    ensures Descends(s, Drop(s, adapter, o))
  {
    WithoutDescends(s, Drop(s, adapter, o), o);
  }

  lemma {:induction false} CancelDescends(s: State, adapter: bool, o: nat)
    requires Tags(s.armed, s.nextTag)
    ensures Descends(s, Cancel(s, adapter, o))
  {
    WithoutDescends(s, Cancel(s, adapter, o), o);
  }

  lemma {:induction false} SameDescends(s: State, s': State)
    requires Tags(s.armed, s.nextTag) && s'.armed == s.armed && s'.nextTag == s.nextTag
    ensures Descends(s, s')
  {
    FromSelf(s.armed, s.nextTag);
  }

  lemma {:induction false} DropAllDescends(s: State, adapter: bool, os: seq<nat>)
    requires Tags(s.armed, s.nextTag)
    ensures Descends(s, DropAll(s, adapter, os))
    decreases |os|
  {
    if os == [] {
      SameDescends(s, s);
    } else {
      var s' := DropAll(s, adapter, os[..|os| - 1]);
      DropAllDescends(s, adapter, os[..|os| - 1]);
      DropDescends(s', adapter, os[|os| - 1]);
      DescendsChain(s, s', Drop(s', adapter, os[|os| - 1]));
    }
  }

  lemma {:induction false} ArmAllTags(ps: seq<Intent>, qty: real, price: real, tag: nat)
    ensures |ArmAll(ps, qty, price, tag)| == |ps|
    ensures forall k :: 0 <= k < |ps| ==> ArmAll(ps, qty, price, tag)[k].tag == tag + k
  {
    if ps != [] {
      ArmAllTags(ps[1..], qty, price, tag + 1);
    }
  }

  lemma {:induction false} OpenerFillDescends(s: State, adapter: bool, o: nat, qty: real, price: real,
                                              placed: Option<nat>)
    requires Tags(s.armed, s.nextTag)
    ensures Descends(s, OpenerFill(s, adapter, o, qty, price, placed))
  {
    var ps, s' := PendingFor(s.pending, o), OpenerFill(s, adapter, o, qty, price, placed);
    if ps == [] {
      GrowArmed(s.armed, o, qty, price);
      forall j | 0 <= j < |s'.armed|
        ensures From(s.armed, s.nextTag, s'.armed[j])
      {
        assert Follows(s.armed[j], s'.armed[j]);
      }
    } else {
      ArmAllTags(ps, qty, price, s.nextTag);
      forall j | 0 <= j < |s'.armed|
        ensures From(s.armed, s.nextTag, s'.armed[j])
      {
        if j < |s.armed| {
          assert Follows(s.armed[j], s'.armed[j]);
        }
      }
    }
  }

  lemma {:induction false} KeepDescends(s: State, i: nat, b: Armed)
    requires Tags(s.armed, s.nextTag) && i < |s.armed| && Follows(s.armed[i], b)
    ensures Descends(s, s.(armed := s.armed[i := b]))
  {
    var ys := s.armed[i := b];
    forall j | 0 <= j < |ys|
      ensures From(s.armed, s.nextTag, ys[j])
    {
      assert Follows(s.armed[j], ys[j]);
    }
  }

  lemma {:induction false} RemoveDescends(s: State, s': State, i: nat)
    requires Tags(s.armed, s.nextTag) && i < |s.armed| && s'.armed == RemoveAt(s.armed, i) && s'.nextTag == s.nextTag
    ensures Descends(s, s')
  {
    forall j | 0 <= j < |s'.armed|
      ensures From(s.armed, s.nextTag, s'.armed[j])
    {
      assert Follows(s.armed[if j < i then j else j + 1], s'.armed[j]);
    }
  }

  lemma {:induction false} VisitDescends(s: State, adapter: bool, i: nat, t: Trigger)
    requires Tags(s.armed, s.nextTag) && i < |s.armed|
    ensures Descends(s, Visit(s, adapter, i, t))
  {
    var v := Judge(s.armed[i], t);
    JudgeRatchets(s.armed[i], t);
    if s.armed[i].intent.symbol != t.symbol {
      SameDescends(s, s);
    } else if v.Keep? {
      KeepDescends(s, i, v.armed);
    } else {
      FiredShrinks(s, adapter, i, v.armed, v.price);
      RemoveDescends(s, Fired(s, adapter, i, v.armed, v.price), i);
    }
  }

  lemma {:induction false} ScanDescends(s: State, adapter: bool, i: nat, t: Trigger)
    requires Tags(s.armed, s.nextTag)
    ensures Descends(s, Scan(s, adapter, i, t))
    decreases |s.armed| - i
  {
    if i >= |s.armed| {
      SameDescends(s, s);
    } else {
      var s', k := Visit(s, adapter, i, t), if Stays(s.armed[i], t) then i + 1 else i;
      VisitDescends(s, adapter, i, t);
      VisitLength(s, adapter, i, t);
      ScanDescends(s', adapter, k, t);
      DescendsChain(s, s', Scan(s', adapter, k, t));
    }
  }

  lemma {:induction false} AppendDescends(s: State, s': State, a: Armed)
    requires Tags(s.armed, s.nextTag) && a.tag == s.nextTag && s'.armed == s.armed + [a] && s'.nextTag == s.nextTag + 1
    ensures Descends(s, s')
  {
    forall j | 0 <= j < |s'.armed|
      ensures From(s.armed, s.nextTag, s'.armed[j])
    {
      if j < |s.armed| {
        assert Follows(s.armed[j], s'.armed[j]);
      }
    }
  }

  lemma {:induction false} Twice<T>(xs: seq<T>, i: nat, j: nat)
    requires i < j < |xs| && xs[i] == xs[j]
    ensures multiset(xs)[xs[i]] >= 2
  {
    assert xs == xs[..j] + ([xs[j]] + xs[j + 1..]);
    assert xs[..j][i] in xs[..j];
  }

  lemma {:induction false} Once(xs: seq<Armed>, next: nat, a: Armed)
    requires Tags(xs, next)
    ensures multiset(xs)[a] <= 1
  {
    if xs != [] {
      var rest := xs[1..];
      assert xs == [xs[0]] + rest;
      forall i, j | 0 <= i < j < |rest|
        ensures rest[i].tag != rest[j].tag
      {
        assert xs[i + 1].tag != xs[j + 1].tag;
      }
      Once(rest, next, a);
      forall j | 0 <= j < |rest|
        ensures rest[j] != xs[0]
      {
        assert xs[0].tag != xs[j + 1].tag;
      }
    }
  }

  lemma {:induction false} TagsReordered(xs: seq<Armed>, ys: seq<Armed>, next: nat)
    requires Tags(xs, next) && multiset(xs) == multiset(ys)
    ensures Tags(ys, next)
  {
    SameElements(xs, ys);
    forall i | 0 <= i < |ys|
      ensures ys[i].tag < next
    {
      assert ys[i] in xs;
    }
    forall i, j | 0 <= i < j < |ys|
      ensures ys[i].tag != ys[j].tag
    {
      assert ys[i] in xs && ys[j] in xs;
      if ys[i].tag == ys[j].tag {
        assert ys[i] == ys[j];
        Twice(ys, i, j);
        Once(xs, next, ys[i]);
        assert false;
      }
    }
  }

  lemma {:induction false} FromReordered(xs: seq<Armed>, ys: seq<Armed>, next: nat)
    requires multiset(xs) == multiset(ys)
    ensures AllFrom(xs, next, ys)
  {
    SameElements(xs, ys);
    FromSelf(xs, next);
    forall j | 0 <= j < |ys|
      ensures From(xs, next, ys[j])
    {
      assert ys[j] in xs;
      var i :| 0 <= i < |xs| && xs[i] == ys[j];
      assert From(xs, next, xs[i]);
    }
  }

  lemma {:induction false} RehashDescends(s: State, pending: seq<Intent>, armed: seq<Armed>, index: seq<Key>)
    requires Tags(s.armed, s.nextTag)
    ensures Descends(s, Rehash(s, pending, armed, index))
  {
    if Reordered(s, pending, armed, index) {
      TagsReordered(s.armed, armed, s.nextTag);
      FromReordered(s.armed, armed, s.nextTag);
    } else {
      SameDescends(s, s);
    }
  }

  lemma {:induction false} RehydrateDescends(s: State, i: Intent, qty: real, entry: real, bracket: Option<nat>)
    requires Tags(s.armed, s.nextTag)
    ensures Descends(s, Rehydrate(s, i, qty, entry, bracket))
  {
    var s' := Rehydrate(s, i, qty, entry, bracket);
    if i.opener == 0 || bracket.None? {
      SameDescends(s, s');
    } else {
      AppendDescends(s, s', Armed(i.(fraction := 1.0), qty, entry, entry, s.nextTag));
    }
  }

  lemma {:induction false} CloserFillDescends(s: State, adapter: bool, o: nat, qty: real, own: bool)
    requires Tags(s.armed, s.nextTag)
    ensures Descends(s, CloserFill(s, adapter, o, qty, own))
  {
    var s' := Settle(s, o, qty, own);
    SameDescends(s, s');
    CancelDescends(s', adapter, o);
    DescendsChain(s, s', Cancel(s', adapter, o));
  }

  lemma {:induction false} CancelBulkDescends(s: State, adapter: bool, strategy: string, symbol: string)
    requires Tags(s.armed, s.nextTag)
    ensures Descends(s, CancelBulk(s, adapter, strategy, symbol))
  {
    var s' := s.(index := IndexWithout(s.index, strategy, symbol));
    SameDescends(s, s');
    DropAllDescends(s', adapter, OpenersOf(s.index, strategy, symbol));
    DescendsChain(s, s', CancelBulk(s, adapter, strategy, symbol));
  }

  lemma {:induction false} TriggerDescends(s: State, adapter: bool, t: Trigger)
    requires Tags(s.armed, s.nextTag)
    ensures Descends(s, OnTrigger(s, adapter, t))
  {
    SameDescends(s, s);
    ScanDescends(s, adapter, 0, t);
  }

  lemma {:induction false} RegisterDescends(s: State, i: Intent)
    requires Tags(s.armed, s.nextTag)
    ensures Descends(s, Register(s, i))
  {
    SameDescends(s, Register(s, i));
  }

  lemma {:induction false} StepDescends(s: State, adapter: bool, a: Action)
    requires Tags(s.armed, s.nextTag)
    ensures Descends(s, Step(s, adapter, a))
  {
    match a
    case Add(i) => RegisterDescends(s, i);
    case Opened(o, qty, price, placed) => OpenerFillDescends(s, adapter, o, qty, price, placed);
    case Closed(o, qty, own) => CloserFillDescends(s, adapter, o, qty, own);
    case Market(t) => TriggerDescends(s, adapter, t);
    case CancelOne(o) => CancelDescends(s, adapter, o);
    case CancelFor(strategy, symbol) => CancelBulkDescends(s, adapter, strategy, symbol);
    case Recover(i, qty, entry, bracket) => RehydrateDescends(s, i, qty, entry, bracket);
    case Shuffle(pending, armed, index) => RehashDescends(s, pending, armed, index);
  }

  lemma {:induction false} RunTags(adapter: bool, actions: seq<Action>)
    ensures Tags(Run(adapter, actions).armed, Run(adapter, actions).nextTag)
    decreases |actions|
  {
    if actions != [] {
      RunTags(adapter, actions[..|actions| - 1]);
      StepDescends(Run(adapter, actions[..|actions| - 1]), adapter, actions[|actions| - 1]);
    }
  }

  lemma {:induction false} RunDescends(adapter: bool, before: seq<Action>, after: seq<Action>)
    ensures Descends(Run(adapter, before), Run(adapter, before + after))
    decreases |after|
  {
    RunTags(adapter, before);
    if after == [] {
      assert before + after == before;
      SameDescends(Run(adapter, before), Run(adapter, before));
    } else {
      var n := |after| - 1;
      RunDescends(adapter, before, after[..n]);
      assert (before + after)[..|before + after| - 1] == before + after[..n];
      var mid := Run(adapter, before + after[..n]);
      StepDescends(mid, adapter, after[n]);
      DescendsChain(Run(adapter, before), mid, Run(adapter, before + after));
    }
  }

  /** Whatever happens in between, an armed intent's stop has only moved in the position's favour. */
  lemma {:induction false} StopsOnlyRatchet(adapter: bool, before: seq<Action>, after: seq<Action>, i: nat, j: nat)
    requires i < |Run(adapter, before).armed| && j < |Run(adapter, before + after).armed|
    requires Run(adapter, before).armed[i].tag == Run(adapter, before + after).armed[j].tag
    ensures var a, b := Run(adapter, before).armed[i].intent, Run(adapter, before + after).armed[j].intent;
      a.closeSell == b.closeSell && Ratchets(a.closeSell, a.stop, b.stop)
  {
    RunTags(adapter, before);
    RunDescends(adapter, before, after);
    var s, s' := Run(adapter, before), Run(adapter, before + after);
    assert From(s.armed, s.nextTag, s'.armed[j]);
    var k :| 0 <= k < |s.armed| && Follows(s.armed[k], s'.armed[j]);
    assert k == i;
  }
}
