/** The exit manager as a state machine: intents are pending until their opener fills, armed until
    they fire or are cancelled, and fired intents emit closes. Quantities reserved, in flight and
    brackets resting at the venue are kept per opener.
 */
module ExitModel {
  import opened Lots
  import opened ExitRules

  /** A closing order: the opener it closes, how much and at what price. */
  datatype Close = Close(opener: nat, qty: real, price: real)

  /** An entry of the index from strategy and symbol to openers. */
  datatype Key = Key(strategy: string, symbol: string, opener: nat)

  datatype Filled = Filled(opener: nat, qty: real)

  /** What happened so far: intents registered, opener fills, intents fired with their closes, and
      the brackets cancelled at the venue. `outstanding` is what the manager's own closes still have
      to fill, and `disturbed` holds the openers that saw other closing fills, both since the last
      cancel of the opener. */
  datatype Log = Log(registered: seq<Intent>, fills: seq<Filled>, fired: seq<Intent>, closes: seq<Close>,
                     cancelled: seq<nat>, outstanding: map<nat, real>, disturbed: set<nat>)

  /** `handles` maps an opener to its bracket at the venue. The order of `pending`, `armed` and `index`
      is that of the hash containers. */
  datatype State = State(pending: seq<Intent>, armed: seq<Armed>, remaining: map<nat, real>, inFlight: map<nat, real>,
                         index: seq<Key>, handles: map<nat, nat>, nextTag: nat, log: Log)

  const START := State([], [], map[], map[], [], map[], 0, Log([], [], [], [], [], map[], {}))

  function Min(a: real, b: real): (r: real)
    ensures r <= a && r <= b && (r == a || r == b)
  {
    if a <= b then a else b
  }

  function Abs(x: real): real {
    if x < 0.0 then -x else x
  }

  function Amount(m: map<nat, real>, o: nat): real {
    if o in m then m[o] else 0.0
  }

  /** The fraction of the opener an intent closes. */
  function Clamp(f: real): (r: real)
    ensures 0.0 < r <= 1.0
  {
    if f <= 0.0 || f > 1.0 then 1.0 else f
  }

  // ----- Multimaps keyed by opener

  function PendingFor(ps: seq<Intent>, o: nat): seq<Intent> {
    if ps == [] then [] else (if ps[0].opener == o then [ps[0]] else []) + PendingFor(ps[1..], o)
  }

  function PendingWithout(ps: seq<Intent>, o: nat): seq<Intent> {
    if ps == [] then [] else (if ps[0].opener == o then [] else [ps[0]]) + PendingWithout(ps[1..], o)
  }

  function ArmedWithout(xs: seq<Armed>, o: nat): seq<Armed> {
    if xs == [] then [] else (if xs[0].intent.opener == o then [] else [xs[0]]) + ArmedWithout(xs[1..], o)
  }

  predicate IsArmed(xs: seq<Armed>, o: nat) {
    exists i :: 0 <= i < |xs| && xs[i].intent.opener == o
  }

  function Untracked(index: seq<Key>, k: Key): seq<Key> {
    if index == [] then [] else (if index[0] == k then [] else [index[0]]) + Untracked(index[1..], k)
  }

  // ----- Venue brackets

  /** Drops the handle and, if there is one, has the venue cancel it. */
  function Release(s: State, adapter: bool, o: nat): State {
    if o !in s.handles then s
    else s.(handles := s.handles - {o},
            log := if adapter then s.log.(cancelled := s.log.cancelled + [s.handles[o]]) else s.log)
  }

  /** A newly placed bracket; a handle the opener already has stays. */
  function Install(s: State, o: nat, bracket: nat): State {
    if o in s.handles then s else s.(handles := s.handles[o := bracket])
  }

  // ----- Registering and cancelling

  function Register(s: State, i: Intent): State {
    if i.opener == 0 then s
    else s.(index := s.index + [Key(i.strategy, i.symbol, i.opener)], pending := s.pending + [i],
            log := s.log.(registered := s.log.registered + [i]))
  }

  /** Everything of one opener goes. */
  function Drop(s: State, adapter: bool, o: nat): State {
    var s' := s.(pending := PendingWithout(s.pending, o), armed := ArmedWithout(s.armed, o),
                 remaining := s.remaining - {o}, inFlight := s.inFlight - {o},
                 log := s.log.(outstanding := s.log.outstanding - {o}, disturbed := s.log.disturbed - {o}));
    Release(s', adapter, o)
  }

  /** The strategy and symbol under which an opener is looked up for untracking. */
  function NameOf(s: State, o: nat): Option<Key> {
    var ps := PendingFor(s.pending, o);
    if ps != [] then Some(Key(ps[0].strategy, ps[0].symbol, o))
    else FirstArmed(s.armed, o)
  }

  function FirstArmed(xs: seq<Armed>, o: nat): Option<Key> {
    if xs == [] then None
    else if xs[0].intent.opener == o then Some(Key(xs[0].intent.strategy, xs[0].intent.symbol, o))
    else FirstArmed(xs[1..], o)
  }

  function Cancel(s: State, adapter: bool, o: nat): State {
    var name := NameOf(s, o);
    var s' := if name.Some? && (name.value.strategy != "" || name.value.symbol != "")
              then s.(index := Untracked(s.index, name.value)) else s;
    Drop(s', adapter, o)
  }

  function OpenersOf(index: seq<Key>, strategy: string, symbol: string): seq<nat> {
    if index == [] then []
    else (if index[0].strategy == strategy && index[0].symbol == symbol then [index[0].opener] else [])
         + OpenersOf(index[1..], strategy, symbol)
  }

  function IndexWithout(index: seq<Key>, strategy: string, symbol: string): seq<Key> {
    if index == [] then []
    else (if index[0].strategy == strategy && index[0].symbol == symbol then [] else [index[0]])
         + IndexWithout(index[1..], strategy, symbol)
  }

  function DropAll(s: State, adapter: bool, os: seq<nat>): State
    decreases |os|
  {
    if os == [] then s else Drop(DropAll(s, adapter, os[..|os| - 1]), adapter, os[|os| - 1])
  }

  /** Cancels every opener of a strategy and symbol. */
  function CancelBulk(s: State, adapter: bool, strategy: string, symbol: string): State {
    var os := OpenersOf(s.index, strategy, symbol);
    DropAll(s.(index := IndexWithout(s.index, strategy, symbol)), adapter, os)
  }

  // ----- Fills

  /** An armed copy of a pending intent, with entry-relative levels moved to the actual entry. */
  function Arm(i: Intent, qty: real, price: real, tag: nat): Armed {
    var moved :=
      if i.reference.Some? && i.reference.value > 0.0 then
        var delta := price - i.reference.value;
        var shift := if Abs(delta) > 0.000000000000001 then delta else 0.0;
        i.(stop := if i.stop.Some? then Some(i.stop.value + shift) else None,
           target := if i.target.Some? then Some(i.target.value + shift) else None,
           reference := Some(price))
      else i;
    Armed(moved, ShareOf(i, qty), price, price, tag)
  }

  function ArmAll(ps: seq<Intent>, qty: real, price: real, tag: nat): seq<Armed> {
    if ps == [] then [] else [Arm(ps[0], qty, price, tag)] + ArmAll(ps[1..], qty, price, tag + 1)
  }

  /** An intent's share of a fill. */
  function ShareOf(i: Intent, qty: real): real {
    qty * Clamp(i.fraction)
  }

  /** The entry price averaged over what was armed and what is added. */
  function Rolled(a: Armed, add: real, price: real): real {
    if a.qty + add > 0.0 then (a.entry * a.qty + price * add) / (a.qty + add) else a.entry
  }

  /** A further fill of the opener grows an armed intent and rolls its entry price. */
  function Grown(a: Armed, qty: real, price: real): Armed {
    var add := ShareOf(a.intent, qty);
    if add <= 0.0 then a else a.(qty := a.qty + add, entry := Rolled(a, add, price))
  }

  function GrowAll(xs: seq<Armed>, o: nat, qty: real, price: real): seq<Armed> {
    if xs == [] then []
    else [if xs[0].intent.opener == o then Grown(xs[0], qty, price) else xs[0]] + GrowAll(xs[1..], o, qty, price)
  }

  /** A fill of an opener: its pending intents are armed and the first one may be placed at the
      venue, which answers with a bracket; without pending intents the armed ones grow. */
  function OpenerFill(s: State, adapter: bool, o: nat, qty: real, price: real, placed: Option<nat>): State {
    var ps := PendingFor(s.pending, o);
    var s' := s.(remaining := s.remaining[o := Amount(s.remaining, o) + qty],
                 log := s.log.(fills := s.log.fills + [Filled(o, qty)]));
    if ps == [] then s'.(armed := GrowAll(s.armed, o, qty, price))
    else
      var s'' := s'.(armed := s.armed + ArmAll(ps, qty, price, s.nextTag), nextTag := s.nextTag + |ps|,
                     pending := PendingWithout(s.pending, o));
      if adapter && placed.Some? then Install(s'', o, placed.value) else s''
  }

  /** Takes a closing fill out of what is in flight for the opener. */
  function Matched(m: map<nat, real>, o: nat, qty: real): map<nat, real> {
    if o !in m then m
    else
      var left := m[o] - Min(qty, m[o]);
      if left <= DUST then m - {o} else m[o := left]
  }

  /** The bookkeeping of a closing fill. `own` tells the fills of the manager's own closes. */
  function Settle(s: State, o: nat, qty: real, own: bool): State {
    s.(inFlight := Matched(s.inFlight, o, qty),
       log := if own then s.log.(outstanding := s.log.outstanding[o := Amount(s.log.outstanding, o) - qty])
              else s.log.(disturbed := s.log.disturbed + {o}))
  }

  /** A fill that closes an opener: first against what is in flight; a rest that is not in flight
      cancels the opener, and so does an opener with nothing remaining. */
  function CloserFill(s: State, adapter: bool, o: nat, qty: real, own: bool): State {
    var unaccounted := qty - if o in s.inFlight then Min(qty, s.inFlight[o]) else 0.0;
    if unaccounted > DUST || o !in s.remaining || s.remaining[o] <= 0.0 then Cancel(Settle(s, o, qty, own), adapter, o)
    else Settle(s, o, qty, own)
  }

  // ----- Firing

  /** What an opener still has for a close of `requested`, and what remains afterwards; an opener
      without an entry grants everything. */
  function Granted(m: map<nat, real>, o: nat, requested: real): real {
    if requested <= 0.0 then 0.0
    else if o !in m then requested
    else Min(requested, m[o])
  }

  function Consumed(m: map<nat, real>, o: nat, requested: real): map<nat, real> {
    if requested <= 0.0 || o !in m then m
    else
      var left := m[o] - Min(requested, m[o]);
      m[o := if Abs(left) < DUST then 0.0 else left]
  }

  function RemoveAt(xs: seq<Armed>, i: nat): seq<Armed>
    requires i < |xs|
  {
    xs[..i] + xs[i + 1..]
  }

  /** Forgets an opener's place in the index and its bracket. */
  function Retire(s: State, adapter: bool, a: Armed): State {
    Release(s.(index := Untracked(s.index, Key(a.intent.strategy, a.intent.symbol, a.intent.opener))), adapter,
            a.intent.opener)
  }

  /** The armed intent at `i` fires as `a` at `price`. */
  function Fired(s: State, adapter: bool, i: nat, a: Armed, price: real): State
    requires i < |s.armed|
  {
    var o := a.intent.opener;
    var qty := Granted(s.remaining, o, a.qty);
    var s1 := s.(armed := RemoveAt(s.armed, i), remaining := Consumed(s.remaining, o, a.qty));
    if qty <= 0.0 then
      if IsArmed(s1.armed, o) then s1 else Retire(s1, adapter, a)
    else
      var s2 := s1.(inFlight := s.inFlight[o := Amount(s.inFlight, o) + qty],
                    log := s.log.(closes := s.log.closes + [Close(o, qty, price)], fired := s.log.fired + [a.intent],
                                  outstanding := s.log.outstanding[o := Amount(s.log.outstanding, o) + qty]));
      var s3 := Release(s2, adapter, o);
      if o !in s3.remaining || s3.remaining[o] <= 0.0 || !IsArmed(s3.armed, o)
      then Retire(s3.(remaining := s3.remaining - {o}), adapter, a)
      else s3
  }

  /** One visit of the scan over the armed intents. */
  function Visit(s: State, adapter: bool, i: nat, t: Trigger): State
    requires i < |s.armed|
  {
    var a := s.armed[i];
    if a.intent.symbol != t.symbol then s
    else
      match Judge(a, t)
      case Keep(b) => s.(armed := s.armed[i := b])
      case Fire(b, price) => Fired(s, adapter, i, b, price)
  }

  /** Whether a visit leaves the intent in its place. */
  predicate Stays(a: Armed, t: Trigger) {
    a.intent.symbol != t.symbol || Judge(a, t).Keep?
  }

  function Scan(s: State, adapter: bool, i: nat, t: Trigger): State
    decreases |s.armed| - i
  {
    if i >= |s.armed| then s
    else if Stays(s.armed[i], t) then Scan(Visit(s, adapter, i, t), adapter, i + 1, t)
    else ScanAfterFire(s, adapter, i, t)
  }

  function ScanAfterFire(s: State, adapter: bool, i: nat, t: Trigger): State
    requires i < |s.armed| && !Stays(s.armed[i], t)
    decreases |s.armed| - i, 0
  {
    FiredShrinks(s, adapter, i, Judge(s.armed[i], t).armed, Judge(s.armed[i], t).price);
    Scan(Visit(s, adapter, i, t), adapter, i, t)
  }

  lemma FiredShrinks(s: State, adapter: bool, i: nat, a: Armed, price: real)
    requires i < |s.armed|
    ensures Fired(s, adapter, i, a, price).armed == RemoveAt(s.armed, i)
  {
  }

  function OnTrigger(s: State, adapter: bool, t: Trigger): State {
    if Usable(t) then Scan(s, adapter, 0, t) else s
  }

  /** A bracket found at the venue after a restart; without one there is nothing to recover. */
  function Rehydrate(s: State, i: Intent, qty: real, entry: real, bracket: Option<nat>): State {
    if i.opener == 0 || bracket.None? then s
    else
      var a := Armed(i.(fraction := 1.0), qty, entry, entry, s.nextTag);
      var s' := s.(armed := s.armed + [a], nextTag := s.nextTag + 1, remaining := s.remaining[i.opener := qty],
                   index := if i.strategy != "" || i.symbol != ""
                            then s.index + [Key(i.strategy, i.symbol, i.opener)] else s.index,
                   log := s.log.(registered := s.log.registered + [a.intent],
                                 fills := s.log.fills + [Filled(i.opener, qty)]));
      Install(s', i.opener, bracket.value)
  }

  // ----- The order of the containers

  /** The same intents and index entries in another order. */
  predicate Reordered(s: State, pending: seq<Intent>, armed: seq<Armed>, index: seq<Key>) {
    && multiset(pending) == multiset(s.pending) && multiset(armed) == multiset(s.armed)
    && multiset(index) == multiset(s.index)
  }

  /** A hash container may change its order whenever something is inserted. */
  function Rehash(s: State, pending: seq<Intent>, armed: seq<Armed>, index: seq<Key>): State {
    if Reordered(s, pending, armed, index) then s.(pending := pending, armed := armed, index := index) else s
  }

  lemma {:induction false} SameElements<T(!new)>(xs: seq<T>, ys: seq<T>)
    requires multiset(xs) == multiset(ys)
    ensures forall x :: x in xs <==> x in ys
  {
    forall x
      ensures x in xs <==> x in ys
    {
      assert x in xs <==> x in multiset(xs);
      assert x in ys <==> x in multiset(ys);
    }
  }

  lemma {:induction false} ReorderedArmed(xs: seq<Armed>, ys: seq<Armed>, o: nat)
    requires multiset(xs) == multiset(ys)
    ensures IsArmed(xs, o) <==> IsArmed(ys, o)
  {
    SameElements(xs, ys);
    if IsArmed(xs, o) {
      var i :| 0 <= i < |xs| && xs[i].intent.opener == o;
      assert xs[i] in ys;
    }
    if IsArmed(ys, o) {
      var i :| 0 <= i < |ys| && ys[i].intent.opener == o;
      assert ys[i] in xs;
    }
  }
}
