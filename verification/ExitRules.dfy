/** How a single armed exit reacts to a tick or a bar: when it fires, at what price, and how its
    stop trails the market.
 */
module ExitRules {
  datatype Option<T> = None | Some(value: T)

  /** `closeSell`: the exit sells, so it protects a long position. */
  datatype Intent = Intent(opener: nat, strategy: string, symbol: string, closeSell: bool, fraction: real,
                           stop: Option<real>, target: Option<real>, reference: Option<real>,
                           trailing: Option<real>, deadline: Option<int>)

  /** An armed intent: `qty` to close, entry and best price so far. `tag` tells armed intents apart. */
  datatype Armed = Armed(intent: Intent, qty: real, entry: real, best: real, tag: nat)

  datatype Trigger =
    | Tick(symbol: string, price: real, ts: int)
    | Bar(symbol: string, open: real, low: real, high: real, close: real, ts: int)

  /** What becomes of an armed intent. */
  datatype Verdict = Keep(armed: Armed) | Fire(armed: Armed, price: real)

  /** The better of the best price so far and the price seen. */
  function Best(a: Armed, price: real): real {
    if a.intent.closeSell then (if price > a.best then price else a.best)
    else if price < a.best then price else a.best
  }

  /** The stop follows the best price at the trailing distance, but never moves back. */
  function Trailed(a: Armed, best: real): Option<real> {
    if a.intent.trailing.None? then a.intent.stop
    else if a.intent.closeSell then
      var level := best * (1.0 - a.intent.trailing.value);
      var current := if a.intent.stop.Some? then a.intent.stop.value else 0.0;
      if level > current then Some(level) else a.intent.stop
    else
      var level := best * (1.0 + a.intent.trailing.value);
      if a.intent.stop.None? || level < a.intent.stop.value then Some(level) else a.intent.stop
  }

  function Trail(a: Armed, price: real): Armed {
    var best := Best(a, price);
    a.(best := best, intent := a.intent.(stop := Trailed(a, best)))
  }

  predicate StopHit(a: Armed, price: real) {
    a.intent.stop.Some? && if a.intent.closeSell then price <= a.intent.stop.value else price >= a.intent.stop.value
  }

  predicate TargetHit(a: Armed, price: real) {
    && a.intent.target.Some?
    && if a.intent.closeSell then price >= a.intent.target.value else price <= a.intent.target.value
  }

  predicate Expired(a: Armed, ts: int) {
    a.intent.deadline.Some? && ts >= a.intent.deadline.value
  }

  /** A tick first moves the trail and then tests all three conditions at its own price. */
  function OnTick(a: Armed, price: real, ts: int): Verdict {
    var t := Trail(a, price);
    if StopHit(t, price) || TargetHit(t, price) || Expired(t, ts) then Fire(t, price) else Keep(t)
  }

  /** The bar extreme in favour of, and against, the position. */
  function Favourable(a: Armed, low: real, high: real): real {
    if a.intent.closeSell then high else low
  }

  function Adverse(a: Armed, low: real, high: real): real {
    if a.intent.closeSell then low else high
  }

  /** The price at which a bar fires, if it does: the stop before the target before the deadline,
      at the level itself or at the open if the bar gapped through it. */
  function BarPrice(a: Armed, open: real, low: real, high: real, close: real, ts: int): Option<real> {
    if StopHit(a, Adverse(a, low, high)) then
      var sl := a.intent.stop.value;
      Some(if (if a.intent.closeSell then open <= sl else open >= sl) then open else sl)
    else if TargetHit(a, Favourable(a, low, high)) then
      var tp := a.intent.target.value;
      Some(if (if a.intent.closeSell then open >= tp else open <= tp) then open else tp)
    else if Expired(a, ts) then Some(close)
    else None
  }

  /** A bar tests the stop as it was before the bar, and moves the trail only if nothing fired. */
  function OnBar(a: Armed, open: real, low: real, high: real, close: real, ts: int): Verdict {
    var price := BarPrice(a, open, low, high, close, ts);
    if price.Some? then Fire(a, price.value) else Keep(Trail(a, Favourable(a, low, high)))
  }

  function Low(low: real, high: real): real {
    if low <= high then low else high
  }

  function High(low: real, high: real): real {
    if low <= high then high else low
  }

  /** A missing open is replaced by the close. */
  function Open(open: real, close: real): real {
    if open > 0.0 then open else close
  }

  /** Whether a tick or bar is looked at all. */
  predicate Usable(t: Trigger) {
    match t
    case Tick(_, price, _) => price > 0.0
    case Bar(_, _, low, high, close, _) => low > 0.0 && high > 0.0 && close > 0.0
  }

  function Judge(a: Armed, t: Trigger): Verdict {
    match t
    case Tick(_, price, ts) => OnTick(a, price, ts)
    case Bar(_, open, low, high, close, ts) => OnBar(a, Open(open, close), Low(low, high), High(low, high), close, ts)
  }

  // ----- The stop only moves in the position's favour

  /** `stop'` protects at least as much as `stop`. */
  predicate Ratchets(closeSell: bool, stop: Option<real>, stop': Option<real>) {
    stop.Some? ==> stop'.Some? && if closeSell then stop'.value >= stop.value else stop'.value <= stop.value
  }

  lemma {:induction false} JudgeRatchets(a: Armed, t: Trigger)
    ensures var a' := Judge(a, t).armed;
      && Ratchets(a.intent.closeSell, a.intent.stop, a'.intent.stop)
      && a' == a.(best := a'.best, intent := a.intent.(stop := a'.intent.stop))
  {
  }

  lemma {:induction false} RatchetsChain(closeSell: bool, a: Option<real>, b: Option<real>, c: Option<real>)
    requires Ratchets(closeSell, a, b) && Ratchets(closeSell, b, c)
    ensures Ratchets(closeSell, a, c)
  {
  }

  // ----- Fire prices of bars

  /** A stop fills at its level or worse, a target at its level or better, both by the levels the
      intent had before the bar. */
  lemma {:induction false} BarPriceSide(a: Armed, open: real, low: real, high: real, close: real, ts: int)
    requires BarPrice(a, open, low, high, close, ts).Some?
    ensures var p := BarPrice(a, open, low, high, close, ts).value;
      && (StopHit(a, Adverse(a, low, high)) ==>
            if a.intent.closeSell then p <= a.intent.stop.value else p >= a.intent.stop.value)
      && (!StopHit(a, Adverse(a, low, high)) && TargetHit(a, Favourable(a, low, high)) ==>
            if a.intent.closeSell then p >= a.intent.target.value else p <= a.intent.target.value)
      && (!StopHit(a, Adverse(a, low, high)) && !TargetHit(a, Favourable(a, low, high)) ==>
            Expired(a, ts) && p == close)
  {
  }

  /** Neither the trailing distance nor the best price so far has a say in what a bar does. */
  lemma {:induction false} BarUsesOldStop(a: Armed, best: real, trailing: Option<real>, open: real, low: real,
                                          high: real, close: real, ts: int)
    ensures BarPrice(a.(best := best, intent := a.intent.(trailing := trailing)), open, low, high, close, ts)
         == BarPrice(a, open, low, high, close, ts)
  {
  }

  ghost predicate AllWithin(open: real, low: real, high: real, close: real) {
    forall a: Armed, ts: int :: BarPrice(a, open, low, high, close, ts).Some? ==>
      low <= BarPrice(a, open, low, high, close, ts).value <= high
  }

  /** Every fire price lies within the bar's range exactly when open and close do. */
  lemma {:induction false} WithinRangeIff(open: real, low: real, high: real, close: real)
    requires low <= high
    ensures AllWithin(open, low, high, close) <==> low <= open <= high && low <= close <= high
  {
    var bare := Intent(0, "", "", true, 1.0, None, None, None, None, None);
    if !(low <= close <= high) {
      var a := Armed(bare.(deadline := Some(0)), 1.0, 1.0, 1.0, 0);
      assert BarPrice(a, open, low, high, close, 0) == Some(close);
    } else if open < low {
      var a := Armed(bare.(stop := Some(low)), 1.0, 1.0, 1.0, 0);
      assert BarPrice(a, open, low, high, close, 0) == Some(open);
    } else if open > high {
      var a := Armed(bare.(target := Some(high)), 1.0, 1.0, 1.0, 0);
      assert BarPrice(a, open, low, high, close, 0) == Some(open);
    }
  }

  /** A bar from 98 to 101 that opens at 105 fires a target of 100 at 105. */
  lemma {:induction false} FiresAboveTheBar()
    ensures var target := Intent(0, "", "", true, 1.0, None, Some(100.0), None, None, None);
      BarPrice(Armed(target, 1.0, 90.0, 90.0, 0), 105.0, 98.0, 101.0, 100.0, 0) == Some(105.0)
  {
  }
}
