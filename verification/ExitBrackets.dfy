/** Venue brackets and trailing stops over every run of the exit manager. */
module ExitBrackets {
  import opened ExitRules
  import opened ExitModel
  import opened ExitSafety

  // ----- Brackets are backed by armed intents

  predicate Backed(handles: map<nat, nat>, armed: seq<Armed>) {
    forall o :: o in handles ==> IsArmed(armed, o)
  }

  predicate NoneTwice(cancelled: seq<nat>) {
    forall i, j :: 0 <= i < j < |cancelled| ==> cancelled[i] != cancelled[j]
  }

  predicate Holds(handles: map<nat, nat>, bracket: nat) {
    exists o :: o in handles && handles[o] == bracket
  }

  /** No two openers hold the same bracket, and one that was cancelled is not held any more nor
      cancelled again. */
  predicate CancelledOnce(handles: map<nat, nat>, cancelled: seq<nat>) {
    && (forall o :: o in handles ==> handles[o] !in cancelled)
    && (forall o, p :: o in handles && p in handles && handles[o] == handles[p] ==> o == p)
    && NoneTwice(cancelled)
  }

  /** Handles are backed and, if asked for, cancelled once. */
  predicate Held(once: bool, s: State) {
    Backed(s.handles, s.armed) && (once ==> CancelledOnce(s.handles, s.log.cancelled))
  }

  predicate Brackets(s: State) {
    Held(true, s)
  }

  /** The opener and the bracket for which an action adds a handle. */
  function Installs(s: State, adapter: bool, a: Action): Option<(nat, nat)> {
    match a
    case Opened(o, _, _, placed) =>
      if adapter && placed.Some? && PendingFor(s.pending, o) != [] && o !in s.handles
      then Some((o, placed.value)) else None
    case Recover(i, _, _, bracket) =>
      if i.opener != 0 && bracket.Some? && i.opener !in s.handles then Some((i.opener, bracket.value)) else None
    case _ => None
  }

  /** A bracket that is handed to the manager is not one it holds or has cancelled. */
  predicate NewBracket(s: State, adapter: bool, a: Action) {
    var i := Installs(s, adapter, a);
    i.Some? ==> i.value.1 !in s.log.cancelled && !Holds(s.handles, i.value.1)
  }

  lemma {:induction false} ReleaseOnce(once: bool, s: State, adapter: bool, o: nat)
    requires once ==> CancelledOnce(s.handles, s.log.cancelled)
    ensures var s' := Release(s, adapter, o);
      && (once ==> CancelledOnce(s'.handles, s'.log.cancelled))
      && s'.handles == s.handles - {o} && s'.armed == s.armed
  {
    if o in s.handles && adapter {
      var c := s.log.cancelled + [s.handles[o]];
      forall p | once && p in s.handles - {o}
        ensures s.handles[p] !in c
      {
        assert s.handles[p] != s.handles[o];
      }
    } else if o !in s.handles {
      assert s.handles - {o} == s.handles;
    }
  }

  lemma {:induction false} InstallBrackets(once: bool, s: State, o: nat, bracket: nat)
    requires Held(once, s) && IsArmed(s.armed, o)
    requires once && o !in s.handles ==> bracket !in s.log.cancelled && !Holds(s.handles, bracket)
    ensures Held(once, Install(s, o, bracket))
  {
    assert forall p :: p in s.handles && s.handles[p] == bracket ==> Holds(s.handles, bracket);
  }

  lemma {:induction false} MoreArmed(handles: map<nat, nat>, xs: seq<Armed>, ys: seq<Armed>)
    requires Backed(handles, xs)
    ensures Backed(handles, xs + ys)
  {
    forall o | o in handles
      ensures IsArmed(xs + ys, o)
    {
      var i :| 0 <= i < |xs| && xs[i].intent.opener == o;
      assert (xs + ys)[i].intent.opener == o;
    }
  }

  lemma {:induction false} RemoveArmed(xs: seq<Armed>, i: nat, o: nat)
    requires i < |xs| && IsArmed(xs, o) && xs[i].intent.opener != o
    ensures IsArmed(RemoveAt(xs, i), o)
  {
    var j :| 0 <= j < |xs| && xs[j].intent.opener == o;
    assert RemoveAt(xs, i)[if j < i then j else j - 1] == xs[j];
  }

  lemma {:induction false} ReplaceArmed(xs: seq<Armed>, i: nat, b: Armed, o: nat)
    requires i < |xs| && IsArmed(xs, o) && xs[i].intent.opener == b.intent.opener
    ensures IsArmed(xs[i := b], o)
  {
    var j :| 0 <= j < |xs| && xs[j].intent.opener == o;
    assert xs[i := b][j].intent.opener == o;
  }

  lemma {:induction false} WithoutArmed(xs: seq<Armed>, o: nat, p: nat)
    requires IsArmed(xs, p) && p != o
    ensures IsArmed(ArmedWithout(xs, o), p)
  {
    var j :| 0 <= j < |xs| && xs[j].intent.opener == p;
    ArmedWithoutMember(xs, o);
    assert xs[j] in ArmedWithout(xs, o);
  }

  lemma {:induction false} GrowArmed(xs: seq<Armed>, o: nat, qty: real, price: real)
    ensures |GrowAll(xs, o, qty, price)| == |xs|
    ensures forall i :: 0 <= i < |xs| ==>
              && GrowAll(xs, o, qty, price)[i].intent == xs[i].intent
              && GrowAll(xs, o, qty, price)[i].tag == xs[i].tag
  {
    if xs != [] {
      GrowArmed(xs[1..], o, qty, price);
    }
  }

  lemma {:induction false} DropBrackets(once: bool, s: State, adapter: bool, o: nat)
    requires Held(once, s)
    ensures Held(once, Drop(s, adapter, o))
  {
    var s1 := s.(pending := PendingWithout(s.pending, o), armed := ArmedWithout(s.armed, o),
                 remaining := s.remaining - {o}, inFlight := s.inFlight - {o},
                 log := s.log.(outstanding := s.log.outstanding - {o}, disturbed := s.log.disturbed - {o}));
    ReleaseOnce(once, s1, adapter, o);
    forall p | p in s.handles - {o}
      ensures IsArmed(ArmedWithout(s.armed, o), p)
    {
      WithoutArmed(s.armed, o, p);
    }
  }

  lemma {:induction false} DropAllBrackets(once: bool, s: State, adapter: bool, os: seq<nat>)
    requires Held(once, s)
    ensures Held(once, DropAll(s, adapter, os))
    decreases |os|
  {
    if os != [] {
      DropAllBrackets(once, s, adapter, os[..|os| - 1]);
      DropBrackets(once, DropAll(s, adapter, os[..|os| - 1]), adapter, os[|os| - 1]);
    }
  }

  lemma {:induction false} OpenerFillBrackets(once: bool, s: State, adapter: bool, o: nat, qty: real, price: real,
                                              placed: Option<nat>)
    requires Held(once, s) && (once ==> NewBracket(s, adapter, Opened(o, qty, price, placed)))
    ensures Held(once, OpenerFill(s, adapter, o, qty, price, placed))
  {
    var ps := PendingFor(s.pending, o);
    if ps == [] {
      GrowArmed(s.armed, o, qty, price);
      forall p | p in s.handles
        ensures IsArmed(GrowAll(s.armed, o, qty, price), p)
      {
        var j :| 0 <= j < |s.armed| && s.armed[j].intent.opener == p;
        assert GrowAll(s.armed, o, qty, price)[j].intent.opener == p;
      }
    } else {
      var more := ArmAll(ps, qty, price, s.nextTag);
      MoreArmed(s.handles, s.armed, more);
      PendingForOpener(s.pending, o);
      assert (s.armed + more)[|s.armed|].intent.opener == o;
      var s'' := s.(remaining := s.remaining[o := Amount(s.remaining, o) + qty],
                    log := s.log.(fills := s.log.fills + [Filled(o, qty)]),
                    armed := s.armed + more, nextTag := s.nextTag + |ps|, pending := PendingWithout(s.pending, o));
      if adapter && placed.Some? {
        InstallBrackets(once, s'', o, placed.value);
      }
    }
  }

  /** Taking an intent out of the armed ones, with or without a close. */
  lemma {:induction false} FiredBrackets(once: bool, s: State, adapter: bool, i: nat, b: Armed, price: real)
    requires Held(once, s) && i < |s.armed| && s.armed[i].intent.opener == b.intent.opener
    ensures Held(once, Fired(s, adapter, i, b, price))
  {
    var o, s' := b.intent.opener, Fired(s, adapter, i, b, price);
    FiredShrinks(s, adapter, i, b, price);
    FiredHandles(once, s, adapter, i, b, price);
    forall p | p in s'.handles
      ensures IsArmed(s'.armed, p)
    {
      if p != o {
        RemoveArmed(s.armed, i, p);
      }
    }
  }

  lemma {:induction false} FiredHandles(once: bool, s: State, adapter: bool, i: nat, b: Armed, price: real)
    requires (once ==> CancelledOnce(s.handles, s.log.cancelled)) && i < |s.armed|
    ensures var s', o := Fired(s, adapter, i, b, price), b.intent.opener;
      && (once ==> CancelledOnce(s'.handles, s'.log.cancelled))
      && (s'.handles == s.handles - {o} || (s'.handles == s.handles && IsArmed(RemoveAt(s.armed, i), o)))
  {
    var o, qty := b.intent.opener, Granted(s.remaining, b.intent.opener, b.qty);
    var key := Key(b.intent.strategy, b.intent.symbol, o);
    var s1 := s.(armed := RemoveAt(s.armed, i), remaining := Consumed(s.remaining, o, b.qty));
    if qty <= 0.0 {
      ReleaseOnce(once, s1.(index := Untracked(s1.index, key)), adapter, o);
    } else {
      var s2 := s1.(inFlight := s.inFlight[o := Amount(s.inFlight, o) + qty],
                    log := s.log.(closes := s.log.closes + [Close(o, qty, price)], fired := s.log.fired + [b.intent],
                                  outstanding := s.log.outstanding[o := Amount(s.log.outstanding, o) + qty]));
      var s3 := Release(s2, adapter, o);
      ReleaseOnce(once, s2, adapter, o);
      ReleaseOnce(once, s3.(remaining := s3.remaining - {o}, index := Untracked(s3.index, key)), adapter, o);
      assert s.handles - {o} - {o} == s.handles - {o};
    }
  }

  lemma {:induction false} ScanBrackets(once: bool, s: State, adapter: bool, i: nat, t: Trigger)
    requires Held(once, s)
    ensures Held(once, Scan(s, adapter, i, t))
    decreases |s.armed| - i
  {
    if i < |s.armed| {
      VisitBrackets(once, s, adapter, i, t);
      VisitLength(s, adapter, i, t);
      ScanBrackets(once, Visit(s, adapter, i, t), adapter, if Stays(s.armed[i], t) then i + 1 else i, t);
    }
  }

  lemma {:induction false} VisitBrackets(once: bool, s: State, adapter: bool, i: nat, t: Trigger)
    requires Held(once, s) && i < |s.armed|
    ensures Held(once, Visit(s, adapter, i, t))
  {
    JudgeShares(s.armed[i], t);
    match Judge(s.armed[i], t)
    case Keep(b) =>
      forall p | p in s.handles
        ensures IsArmed(s.armed[i := b], p)
      {
        ReplaceArmed(s.armed, i, b, p);
      }
    case Fire(b, price) => FiredBrackets(once, s, adapter, i, b, price);
  }

  lemma {:induction false} RehydrateBrackets(once: bool, s: State, i: Intent, qty: real, entry: real,
                                             bracket: Option<nat>)
    requires Held(once, s) && (once ==> NewBracket(s, true, Recover(i, qty, entry, bracket)))
    ensures Held(once, Rehydrate(s, i, qty, entry, bracket))
  {
    if i.opener != 0 && bracket.Some? {
      var a := Armed(i.(fraction := 1.0), qty, entry, entry, s.nextTag);
      MoreArmed(s.handles, s.armed, [a]);
      assert (s.armed + [a])[|s.armed|].intent.opener == i.opener;
      InstallBrackets(once, s.(armed := s.armed + [a]), i.opener, bracket.value);
    }
  }

  lemma {:induction false} RehashBrackets(once: bool, s: State, pending: seq<Intent>, armed: seq<Armed>,
                                          index: seq<Key>)
    requires Held(once, s)
    ensures Held(once, Rehash(s, pending, armed, index))
  {
    if Reordered(s, pending, armed, index) {
      forall o | o in s.handles
        ensures IsArmed(armed, o)
      {
        ReorderedArmed(s.armed, armed, o);
      }
    }
  }

  lemma {:induction false} StepBrackets(once: bool, s: State, adapter: bool, a: Action)
    requires Held(once, s) && (once ==> NewBracket(s, adapter, a))
    ensures Held(once, Step(s, adapter, a))
  {
    match a
    case Add(i) =>
    case Opened(o, qty, price, placed) => OpenerFillBrackets(once, s, adapter, o, qty, price, placed);
    case Closed(o, qty, own) => CancelBrackets(once, Settle(s, o, qty, own), adapter, o);
    case Market(t) => ScanBrackets(once, s, adapter, 0, t);
    case CancelOne(o) => CancelBrackets(once, s, adapter, o);
    case CancelFor(strategy, symbol) =>
      DropAllBrackets(once, s.(index := IndexWithout(s.index, strategy, symbol)), adapter,
                      OpenersOf(s.index, strategy, symbol));
    case Recover(i, qty, entry, bracket) => RehydrateBrackets(once, s, i, qty, entry, bracket);
    case Shuffle(pending, armed, index) => RehashBrackets(once, s, pending, armed, index);
  }

  lemma {:induction false} CancelBrackets(once: bool, s: State, adapter: bool, o: nat)
    requires Held(once, s)
    ensures Held(once, Cancel(s, adapter, o))
  {
    var name := NameOf(s, o);
    DropBrackets(once, s, adapter, o);
    if name.Some? {
      DropBrackets(once, s.(index := Untracked(s.index, name.value)), adapter, o);
    }
  }

  // ----- Runs

  function RunFrom(s: State, adapter: bool, actions: seq<Action>): State
    decreases |actions|
  {
    if actions == [] then s else Step(RunFrom(s, adapter, actions[..|actions| - 1]), adapter, actions[|actions| - 1])
  }

  ghost predicate NewBrackets(s: State, adapter: bool, actions: seq<Action>) {
    forall i :: 0 <= i < |actions| ==> NewBracket(RunFrom(s, adapter, actions[..i]), adapter, actions[i])
  }

  lemma {:induction false} NewBracketsPrefix(s: State, adapter: bool, actions: seq<Action>, n: nat)
    requires NewBrackets(s, adapter, actions) && n <= |actions|
    ensures NewBrackets(s, adapter, actions[..n])
  {
    forall i | 0 <= i < n
      ensures NewBracket(RunFrom(s, adapter, actions[..n][..i]), adapter, actions[..n][i])
    {
      assert actions[..n][..i] == actions[..i];
      assert NewBracket(RunFrom(s, adapter, actions[..i]), adapter, actions[i]);
    }
  }

  lemma {:induction false} RunKeepsBrackets(s: State, adapter: bool, actions: seq<Action>)
    requires Brackets(s) && NewBrackets(s, adapter, actions)
    ensures Brackets(RunFrom(s, adapter, actions))
    decreases |actions|
  {
    if actions != [] {
      var n := |actions| - 1;
      NewBracketsPrefix(s, adapter, actions, n);
      RunKeepsBrackets(s, adapter, actions[..n]);
      assert NewBracket(RunFrom(s, adapter, actions[..n]), adapter, actions[n]);
      StepBrackets(true, RunFrom(s, adapter, actions[..n]), adapter, actions[n]);
    }
  }

  /** In every reachable state a venue bracket is held only for an opener with an armed intent, and
      no bracket was cancelled twice or is held after it was cancelled. */
  lemma {:induction false} RunBrackets(adapter: bool, actions: seq<Action>)
    requires NewBrackets(START, adapter, actions)
    ensures Brackets(RunFrom(START, adapter, actions)) && RunFrom(START, adapter, actions) == Run(adapter, actions)
  {
    RunKeepsBrackets(START, adapter, actions);
    SameRun(adapter, actions);
  }

  /** Whatever brackets the venue hands over, only openers with an armed intent have a handle. */
  lemma {:induction false} RunBacked(adapter: bool, actions: seq<Action>)
    ensures Backed(Run(adapter, actions).handles, Run(adapter, actions).armed)
    decreases |actions|
  {
    if actions != [] {
      var n := |actions| - 1;
      RunBacked(adapter, actions[..n]);
      StepBrackets(false, Run(adapter, actions[..n]), adapter, actions[n]);
    }
  }

  lemma {:induction false} SameRun(adapter: bool, actions: seq<Action>)
    ensures RunFrom(START, adapter, actions) == Run(adapter, actions)
    decreases |actions|
  {
    if actions != [] {
      SameRun(adapter, actions[..|actions| - 1]);
    }
  }

  // ----- Brackets handed over again

  ghost predicate NeverTwice(s: State, adapter: bool) {
    forall actions :: NewBrackets(s, adapter, actions) ==> NoneTwice(RunFrom(s, adapter, actions).log.cancelled)
  }

  lemma {:induction false} CancelReleases(s: State, o: nat)
    ensures var s' := Cancel(s, true, o);
      && s'.log.cancelled == (if o in s.handles then s.log.cancelled + [s.handles[o]] else s.log.cancelled)
      && s'.handles == s.handles - {o}
  {
    assert o !in s.handles ==> s.handles - {o} == s.handles;
  }

  lemma {:induction false} RunNext(s: State, adapter: bool, actions: seq<Action>, a: Action)
    ensures RunFrom(s, adapter, actions + [a]) == Step(RunFrom(s, adapter, actions), adapter, a)
  {
    assert (actions + [a])[..|actions|] == actions;
  }

  lemma {:induction false} RunCancels(s: State, o: nat, p: nat)
    ensures RunFrom(s, true, [CancelOne(o), CancelOne(p)]) == Cancel(Cancel(s, true, o), true, p)
    ensures NewBrackets(s, true, [CancelOne(o), CancelOne(p)])
  {
    RunNext(s, true, [], CancelOne(o));
    RunNext(s, true, [CancelOne(o)], CancelOne(p));
    assert [CancelOne(o)] + [CancelOne(p)] == [CancelOne(o), CancelOne(p)];
  }

  lemma {:induction false} CancelsTwo(s: State, o: nat, p: nat)
    requires o in s.handles
    ensures var all := RunFrom(s, true, [CancelOne(o), CancelOne(p)]).log.cancelled;
      all == s.log.cancelled + [s.handles[o]] + if p in s.handles && p != o then [s.handles[p]] else []
  {
    CancelReleases(s, o);
    CancelReleases(Cancel(s, true, o), p);
    RunCancels(s, o, p);
  }

  lemma {:induction false} Repeated(xs: seq<nat>, i: nat, j: nat)
    requires i < j < |xs| && xs[i] == xs[j]
    ensures !NoneTwice(xs)
  {
  }

  lemma {:induction false} CancelledBefore(s: State, o: nat)
    requires o in s.handles && s.handles[o] in s.log.cancelled
    ensures !NeverTwice(s, true)
  {
    var n := |s.log.cancelled|;
    CancelsTwo(s, o, o);
    RunCancels(s, o, o);
    var i :| 0 <= i < n && s.log.cancelled[i] == s.handles[o];
    Repeated(RunFrom(s, true, [CancelOne(o), CancelOne(o)]).log.cancelled, i, n);
  }

  lemma {:induction false} HeldByTwo(s: State, o: nat, p: nat)
    requires o in s.handles && p in s.handles && o != p && s.handles[p] == s.handles[o]
    ensures !NeverTwice(s, true)
  {
    var n := |s.log.cancelled|;
    CancelsTwo(s, o, p);
    RunCancels(s, o, p);
    Repeated(RunFrom(s, true, [CancelOne(o), CancelOne(p)]).log.cancelled, n, n + 1);
  }

  /** A placed or recovered bracket is cancelled at most once, whatever follows, exactly when the
      manager neither holds nor has cancelled it before. */
  lemma {:induction false} NeverTwiceIff(s: State, a: Action)
    requires Brackets(s)
    ensures NeverTwice(Step(s, true, a), true) <==> NewBracket(s, true, a)
  {
    var s' := Step(s, true, a);
    if NewBracket(s, true, a) {
      StepBrackets(true, s, true, a);
      forall actions | NewBrackets(s', true, actions)
        ensures NoneTwice(RunFrom(s', true, actions).log.cancelled)
      {
        RunKeepsBrackets(s', true, actions);
      }
    } else {
      var i := Installs(s, true, a).value;
      assert s'.handles == s.handles[i.0 := i.1] && s'.log.cancelled == s.log.cancelled;
      if Holds(s.handles, i.1) {
        var q :| q in s.handles && s.handles[q] == i.1;
        HeldByTwo(s', i.0, q);
      } else {
        CancelledBefore(s', i.0);
      }
    }
  }

  lemma {:induction false} RecoverHolds(s: State, i: Intent, b: nat)
    requires i.opener != 0 && i.opener !in s.handles
    ensures var s' := Step(s, true, Recover(i, 1.0, 1.0, Some(b)));
      s'.handles == s.handles[i.opener := b] && s'.log.cancelled == s.log.cancelled
  {
  }

  lemma {:induction false} RecoverThenCancel(s: State, i: Intent, b: nat)
    requires i.opener != 0 && i.opener !in s.handles
    ensures var s' := Step(Step(s, true, Recover(i, 1.0, 1.0, Some(b))), true, CancelOne(i.opener));
      s'.handles == s.handles && s'.log.cancelled == s.log.cancelled + [b]
  {
    RecoverHolds(s, i, b);
    CancelReleases(Step(s, true, Recover(i, 1.0, 1.0, Some(b))), i.opener);
    assert s.handles[i.opener := b] - {i.opener} == s.handles;
  }

  lemma {:induction false} RunTwoMore(s: State, adapter: bool, actions: seq<Action>, a: Action, c: Action)
    ensures RunFrom(s, adapter, actions + [a, c]) == Step(Step(RunFrom(s, adapter, actions), adapter, a), adapter, c)
  {
    RunNext(s, adapter, actions, a);
    RunNext(s, adapter, actions + [a], c);
    assert actions + [a] + [c] == actions + [a, c];
  }

  /** A bracket that is recovered again after its opener was cancelled is cancelled twice. */
  lemma {:induction false} RecoveredTwice(i: Intent, b: nat)
    requires i.opener != 0
    ensures var again := [Recover(i, 1.0, 1.0, Some(b)), CancelOne(i.opener)];
      RunFrom(START, true, again + again).log.cancelled == [b, b]
  {
    var a, c := Recover(i, 1.0, 1.0, Some(b)), CancelOne(i.opener);
    var s2 := RunFrom(START, true, [a, c]);
    assert [] + [a, c] == [a, c];
    RunTwoMore(START, true, [], a, c);
    RecoverThenCancel(START, i, b);
    RunTwoMore(START, true, [a, c], a, c);
    RecoverThenCancel(s2, i, b);
  }
}
