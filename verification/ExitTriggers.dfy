/** When an armed intent fires, at what price and with what stop it lives on, in plain comparisons of
    prices and times; and what a tick or bar does to the whole book of armed intents.
 */
module ExitTriggers {
  import opened Lots
  import opened Sums
  import opened ExitRules
  import opened ExitModel
  import opened ExitSafety
  import opened ExitBrackets
  import opened ExitCover

  function Larger(a: real, b: real): real {
    if a >= b then a else b
  }

  function Smaller(a: real, b: real): real {
    if a <= b then a else b
  }

  // ----- One armed intent

  /** The best price of a position after it saw `price`, and the level that trails it by `pct`. */
  function BestWith(a: Armed, price: real): real {
    if a.intent.closeSell then Larger(a.best, price) else Smaller(a.best, price)
  }

  function TrailingLevel(closeSell: bool, best: real, pct: real): real {
    if closeSell then best * (1.0 - pct) else best * (1.0 + pct)
  }

  /** The tighter of an intent's stop and a level; without a stop a long takes only a level above zero. */
  function Tighter(i: Intent, level: real): Option<real> {
    if i.stop.None? then (if i.closeSell && level <= 0.0 then None else Some(level))
    else Some(if i.closeSell then Larger(i.stop.value, level) else Smaller(i.stop.value, level))
  }

  /** The stop of an intent whose best price is now `best`: a trailing stop is the tighter of the old stop
      and the level that trails the best price. */
  function StopWith(i: Intent, best: real): Option<real> {
    if i.trailing.None? then i.stop
    else Tighter(i, TrailingLevel(i.closeSell, best, i.trailing.value))
  }

  /** What meets an armed intent. A tick meets a long at or below its stop or the level that trails its
      best price, this tick included; a bar, whose low and high may come either way round, meets it at
      or below the stop alone. The target is met from the other side, and the deadline by time. */
  predicate Met(a: Armed, t: Trigger) {
    var i := a.intent;
    match t
    case Tick(_, price, ts) =>
      if i.closeSell then
        || (i.stop.Some? && price <= i.stop.value)
        || (i.trailing.Some? && price <= TrailingLevel(true, BestWith(a, price), i.trailing.value))
        || (i.target.Some? && price >= i.target.value)
        || (i.deadline.Some? && ts >= i.deadline.value)
      else
        || (i.stop.Some? && price >= i.stop.value)
        || (i.trailing.Some? && price >= TrailingLevel(false, BestWith(a, price), i.trailing.value))
        || (i.target.Some? && price <= i.target.value)
        || (i.deadline.Some? && ts >= i.deadline.value)
    case Bar(_, _, low, high, _, ts) =>
      if i.closeSell then
        || (i.stop.Some? && (low <= i.stop.value || high <= i.stop.value))
        || (i.target.Some? && (low >= i.target.value || high >= i.target.value))
        || (i.deadline.Some? && ts >= i.deadline.value)
      else
        || (i.stop.Some? && (low >= i.stop.value || high >= i.stop.value))
        || (i.target.Some? && (low <= i.target.value || high <= i.target.value))
        || (i.deadline.Some? && ts >= i.deadline.value)
  }

  /** The price of the close: that of the tick; of a bar the worse of open and stop, else the better of
      open and target, else the close. */
  function FireAt(a: Armed, t: Trigger): real {
    var i := a.intent;
    match t
    case Tick(_, price, _) => price
    case Bar(_, open, low, high, close, _) =>
      var first := if open > 0.0 then open else close;
      if i.closeSell then
        if i.stop.Some? && (low <= i.stop.value || high <= i.stop.value) then Smaller(first, i.stop.value)
        else if i.target.Some? && (low >= i.target.value || high >= i.target.value) then Larger(first, i.target.value)
        else close
      else
        if i.stop.Some? && (low >= i.stop.value || high >= i.stop.value) then Larger(first, i.stop.value)
        else if i.target.Some? && (low <= i.target.value || high <= i.target.value) then Smaller(first, i.target.value)
        else close
  }

  /** The price of a tick or bar that is best for the position. */
  function BestSeen(a: Armed, t: Trigger): real {
    match t
    case Tick(_, price, _) => price
    case Bar(_, _, low, high, _, _) => if a.intent.closeSell then Larger(low, high) else Smaller(low, high)
  }

  /** An armed intent that lives on, with its best price and stop moved. */
  function Moved(a: Armed, t: Trigger): Armed {
    var best := BestWith(a, BestSeen(a, t));
    a.(best := best, intent := a.intent.(stop := StopWith(a.intent, best)))
  }

  lemma {:induction false} TrailedLong(a: Armed, best: real, level: real)
    requires a.intent.trailing.Some? && a.intent.closeSell && level == best * (1.0 - a.intent.trailing.value)
    ensures Trailed(a, best) == Tighter(a.intent, level)
  {
    if Trailed(a, best) != a.intent.stop {
      assert Trailed(a, best).Some? && Trailed(a, best).value == level;
    }
  }

  lemma {:induction false} TrailedShort(a: Armed, best: real, level: real)
    requires a.intent.trailing.Some? && !a.intent.closeSell && level == best * (1.0 + a.intent.trailing.value)
    ensures Trailed(a, best) == Tighter(a.intent, level)
  {
    if Trailed(a, best) != a.intent.stop {
      assert Trailed(a, best).Some? && Trailed(a, best).value == level;
    }
  }

  lemma {:induction false} TrailedIs(a: Armed, best: real)
    ensures Trailed(a, best) == StopWith(a.intent, best)
  {
    if a.intent.trailing.Some? {
      var pct := a.intent.trailing.value;
      if a.intent.closeSell {
        TrailedLong(a, best, best * (1.0 - pct));
      } else {
        TrailedShort(a, best, best * (1.0 + pct));
      }
    }
  }

  lemma {:induction false} TrailIsMoved(a: Armed, t: Trigger)
    ensures Trail(a, BestSeen(a, t)) == Moved(a, t)
  {
    assert Best(a, BestSeen(a, t)) == BestWith(a, BestSeen(a, t));
    TrailedIs(a, BestWith(a, BestSeen(a, t)));
  }

  /** The stop in force is met exactly if the old stop or the trailing level is. */
  lemma {:induction false} StopInForce(i: Intent, best: real, price: real)
    requires price > 0.0
    ensures var stop := StopWith(i, best);
      var trails := i.trailing.Some?;
      var level := if trails then TrailingLevel(i.closeSell, best, i.trailing.value) else 0.0;
      && (i.closeSell ==> (stop.Some? && price <= stop.value <==>
                             (i.stop.Some? && price <= i.stop.value) || (trails && price <= level)))
      && (!i.closeSell ==> (stop.Some? && price >= stop.value <==>
                              (i.stop.Some? && price >= i.stop.value) || (trails && price >= level)))
  {
  }

  /** A tick fires an armed intent exactly when it meets it. */
  lemma {:induction false} TickFiresIff(a: Armed, symbol: string, price: real, ts: int)
    requires price > 0.0
    ensures var t := Tick(symbol, price, ts);
      && (Judge(a, t).Fire? <==> Met(a, t))
      && Judge(a, t) == if Met(a, t) then Fire(Moved(a, t), FireAt(a, t)) else Keep(Moved(a, t))
  {
    var t := Tick(symbol, price, ts);
    TrailIsMoved(a, t);
    StopInForce(a.intent, BestWith(a, price), price);
    assert BestSeen(a, t) == price;
  }

  lemma {:induction false} BarFiresIff(a: Armed, t: Trigger)
    requires t.Bar?
    ensures Judge(a, t).Fire? <==> Met(a, t)
    ensures Judge(a, t) == if Met(a, t) then Fire(a, FireAt(a, t)) else Keep(Moved(a, t))
  {
    assert BestSeen(a, t) == Favourable(a, Low(t.low, t.high), High(t.low, t.high));
    TrailIsMoved(a, t);
  }

  lemma {:induction false} JudgeIs(a: Armed, t: Trigger)
    requires Usable(t)
    ensures Judge(a, t).Fire? <==> Met(a, t)
    ensures Judge(a, t).Fire? ==> Judge(a, t).price == FireAt(a, t)
    ensures Judge(a, t).Fire? ==> Judge(a, t).armed.intent.opener == a.intent.opener && Judge(a, t).armed.qty == a.qty
    ensures Judge(a, t).Keep? ==> Judge(a, t).armed == Moved(a, t)
  {
    match t
    case Tick(symbol, price, ts) => TickFiresIff(a, symbol, price, ts);
    case Bar(_, _, _, _, _, _) => BarFiresIff(a, t);
  }

  /** A tick does not meet what it left armed: the new stop is still to be reached, and so are the
      target and the deadline. */
  lemma {:induction false} LeftUnmet(a: Armed, symbol: string, price: real, ts: int)
    requires price > 0.0 && !Met(a, Tick(symbol, price, ts))
    ensures var i := Moved(a, Tick(symbol, price, ts)).intent;
      && (i.stop.Some? ==> if i.closeSell then price > i.stop.value else price < i.stop.value)
      && (i.target.Some? ==> if i.closeSell then price < i.target.value else price > i.target.value)
      && (i.deadline.Some? ==> ts < i.deadline.value)
  {
  }

  // ----- All armed intents

  /** What is left armed of `xs`: the intents of other symbols, and those of the symbol that were not
      met, with their stops moved. */
  function Survivors(xs: seq<Armed>, t: Trigger): seq<Armed> {
    if xs == [] then [] else Survivor(xs[0], t) + Survivors(xs[1..], t)
  }

  function Survivor(a: Armed, t: Trigger): seq<Armed> {
    if a.intent.symbol != t.symbol then [a] else if Met(a, t) then [] else [Moved(a, t)]
  }

  /** The closes of the intents that were met, each for all its quantity. */
  function ClosesOf(xs: seq<Armed>, t: Trigger): seq<Close> {
    if xs == [] then []
    else
      (if xs[0].intent.symbol == t.symbol && Met(xs[0], t)
       then [Close(xs[0].intent.opener, xs[0].qty, FireAt(xs[0], t))] else [])
      + ClosesOf(xs[1..], t)
  }

  lemma {:induction false} VisitArmed(s: State, adapter: bool, i: nat, t: Trigger)
    requires Usable(t) && i < |s.armed|
    ensures Visit(s, adapter, i, t).armed == s.armed[..i] + Survivor(s.armed[i], t) + s.armed[i + 1..]
    ensures Stays(s.armed[i], t) <==> s.armed[i].intent.symbol != t.symbol || !Met(s.armed[i], t)
  {
    JudgeIs(s.armed[i], t);
    match Judge(s.armed[i], t)
    case Keep(b) =>
    case Fire(b, price) => FiredShrinks(s, adapter, i, b, price);
  }

  lemma {:induction false} SurvivorsNext(xs: seq<Armed>, i: nat, t: Trigger)
    requires i < |xs|
    ensures Survivors(xs[i..], t) == Survivor(xs[i], t) + Survivors(xs[i + 1..], t)
  {
    assert xs[i..][0] == xs[i] && xs[i..][1..] == xs[i + 1..];
  }

  lemma {:induction false} VisitFront(s: State, adapter: bool, i: nat, t: Trigger)
    requires Usable(t) && i < |s.armed|
    ensures var s', k := Visit(s, adapter, i, t), if Stays(s.armed[i], t) then i + 1 else i;
      k <= |s'.armed| && s'.armed[..k] == s.armed[..i] + Survivor(s.armed[i], t)
  {
    VisitArmed(s, adapter, i, t);
  }

  lemma {:induction false} ScanSurvivors(s: State, adapter: bool, i: nat, t: Trigger)
    requires Usable(t) && i <= |s.armed|
    ensures Scan(s, adapter, i, t).armed == s.armed[..i] + Survivors(s.armed[i..], t)
    decreases |s.armed| - i
  {
    if i < |s.armed| {
      VisitLeaves(s, adapter, i, t);
      VisitFront(s, adapter, i, t);
      ScanNext(s, adapter, i, t);
      ScanSurvivors(Visit(s, adapter, i, t), adapter, if Stays(s.armed[i], t) then i + 1 else i, t);
      SurvivorsNext(s.armed, i, t);
      JoinArmed(s.armed[..i], Survivor(s.armed[i], t), Survivors(s.armed[i + 1..], t));
    }
  }

  lemma {:induction false} JoinArmed(a: seq<Armed>, b: seq<Armed>, c: seq<Armed>)
    ensures a + b + c == a + (b + c)
  {
  }

  /** A tick or bar with proper prices; a bar's open may be missing. */
  predicate Priced(t: Trigger) {
    if t.Tick? then t.price > 0.0 else t.low > 0.0 && t.high > 0.0 && t.close > 0.0
  }

  /** A tick or bar takes away exactly the armed intents of its symbol that it meets and moves the
      others of the symbol; one without a proper price does nothing. */
  lemma {:induction false} TriggerSurvivors(s: State, adapter: bool, t: Trigger)
    ensures OnTrigger(s, adapter, t).armed == if Priced(t) then Survivors(s.armed, t) else s.armed
    ensures !Priced(t) ==> OnTrigger(s, adapter, t) == s
  {
    assert Priced(t) <==> Usable(t);
    if Usable(t) {
      ScanSurvivors(s, adapter, 0, t);
      assert s.armed[0..] == s.armed && s.armed[..0] == [];
    }
  }

  lemma {:induction false} SurvivorsMember(xs: seq<Armed>, t: Trigger, i: nat)
    requires i < |Survivors(xs, t)|
    ensures var a := Survivors(xs, t)[i];
      a.intent.symbol != t.symbol || exists b :: b in xs && !Met(b, t) && a == Moved(b, t)
  {
    if xs[0].intent.symbol != t.symbol || !Met(xs[0], t) {
      if i > 0 {
        assert Survivors(xs, t)[i] == Survivors(xs[1..], t)[i - 1];
        SurvivorsMember(xs[1..], t, i - 1);
      }
    } else {
      assert [] + Survivors(xs[1..], t) == Survivors(xs[1..], t);
      SurvivorsMember(xs[1..], t, i);
    }
  }

  /** After a tick no intent of its symbol is armed whose stop, target or deadline the tick met. */
  lemma {:induction false} NothingMetIsLeft(s: State, adapter: bool, symbol: string, price: real, ts: int, k: nat)
    requires price > 0.0
    requires var xs := OnTrigger(s, adapter, Tick(symbol, price, ts)).armed;
      k < |xs| && xs[k].intent.symbol == symbol
    ensures var i := OnTrigger(s, adapter, Tick(symbol, price, ts)).armed[k].intent;
      && (i.stop.Some? ==> if i.closeSell then price > i.stop.value else price < i.stop.value)
      && (i.target.Some? ==> if i.closeSell then price < i.target.value else price > i.target.value)
      && (i.deadline.Some? ==> ts < i.deadline.value)
  {
    var t := Tick(symbol, price, ts);
    TriggerSurvivors(s, adapter, t);
    SurvivorsMember(s.armed, t, k);
    var b :| b in s.armed && !Met(b, t) && Survivors(s.armed, t)[k] == Moved(b, t);
    LeftUnmet(b, symbol, price, ts);
  }

  lemma {:induction false} VisitCloses(s: State, lot: real, adapter: bool, i: nat, t: Trigger)
    requires Cover(s, lot) && lot > DUST && Usable(t) && i < |s.armed|
    ensures var a := s.armed[i];
      Visit(s, adapter, i, t).log.closes ==
        s.log.closes + if a.intent.symbol == t.symbol && Met(a, t)
                       then [Close(a.intent.opener, a.qty, FireAt(a, t))] else []
  {
    var a := s.armed[i];
    JudgeIs(a, t);
    JudgeShares(a, t);
    match Judge(a, t)
    case Keep(b) =>
    case Fire(b, price) => GrantCover(s, lot, i, b);
  }

  lemma {:induction false} ScanNext(s: State, adapter: bool, i: nat, t: Trigger)
    requires i < |s.armed|
    ensures Scan(s, adapter, i, t)
            == Scan(Visit(s, adapter, i, t), adapter, if Stays(s.armed[i], t) then i + 1 else i, t)
  {
  }

  lemma {:induction false} ClosesNext(xs: seq<Armed>, i: nat, t: Trigger, closes: seq<Close>)
    requires i < |xs|
    ensures var a := xs[i];
      var own := if a.intent.symbol == t.symbol && Met(a, t) then [Close(a.intent.opener, a.qty, FireAt(a, t))] else [];
      closes + ClosesOf(xs[i..], t) == closes + own + ClosesOf(xs[i + 1..], t)
  {
    assert xs[i..][0] == xs[i] && xs[i..][1..] == xs[i + 1..];
  }

  lemma {:induction false} VisitLeaves(s: State, adapter: bool, i: nat, t: Trigger)
    requires Usable(t) && i < |s.armed|
    ensures var s', k := Visit(s, adapter, i, t), if Stays(s.armed[i], t) then i + 1 else i;
      k <= |s'.armed| && s'.armed[k..] == s.armed[i + 1..] && |s'.armed| - k < |s.armed| - i
  {
    VisitArmed(s, adapter, i, t);
  }

  lemma {:induction false} ScanCloses(s: State, lot: real, adapter: bool, i: nat, t: Trigger)
    requires Cover(s, lot) && lot > DUST && Usable(t) && i <= |s.armed|
    ensures Scan(s, adapter, i, t).log.closes == s.log.closes + ClosesOf(s.armed[i..], t)
    decreases |s.armed| - i
  {
    if i < |s.armed| {
      var s', k := Visit(s, adapter, i, t), if Stays(s.armed[i], t) then i + 1 else i;
      VisitLeaves(s, adapter, i, t);
      VisitCover(s, lot, adapter, i, t);
      ScanCloses(s', lot, adapter, k, t);
      VisitCloses(s, lot, adapter, i, t);
      ScanNext(s, adapter, i, t);
      ClosesNext(s.armed, i, t, s.log.closes);
    }
  }

  /** Over every orderly run, a tick or bar closes exactly the armed intents it meets: each once, in
      full, and at its fire price. */
  lemma {:induction false} RunClosesWhatIsMet(adapter: bool, actions: seq<Action>, lot: real, t: Trigger)
    requires Orderly(adapter, actions, lot) && lot > DUST && Usable(t)
    ensures var s := Run(adapter, actions);
      OnTrigger(s, adapter, t).log.closes == s.log.closes + ClosesOf(s.armed, t)
  {
    var s := Run(adapter, actions);
    RunCover(adapter, actions, lot);
    ScanCloses(s, lot, adapter, 0, t);
    assert s.armed[0..] == s.armed;
  }
}
