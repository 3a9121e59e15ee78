/** Queue position of a paper order under three guesses about where cancelled volume sat. The result
    is when the optimistic and the pessimistic guess bracket the middle one.
 */
module QueueModel {
  /** Cancels sat in front of us, evenly, or behind us. */
  datatype Model = Front | Uniform | Back

  function Max(a: real, b: real): real {
    if a >= b then a else b
  }

  function Min(a: real, b: real): real {
    if a <= b then a else b
  }

  /** `update_on_cancels` */
  function Advance(m: Model, ahead: real, total: real, cancels: real): real {
    match m
    case Front => Max(0.0, ahead - cancels)
    case Back => ahead
    case Uniform => if total <= 0.0 || cancels <= 0.0 then ahead else Max(0.0, ahead - cancels * (ahead / total))
  }

  /** A price level as the venue last reported it, and what traded there since. */
  datatype Level = Level(size: real, traded: real)

  /** An order in the queue: what is ahead of it, what is left of it, and what was filled. */
  datatype Place = Place(ahead: real, left: real, filled: real)

  /** A trade at the order's price, or a new size of its level. */
  datatype Event = Trade(qty: real) | Depth(size: real)

  /** A trade first takes what is ahead of the order and fills the order with the rest. */
  function Traded(p: Place, qty: real): Place {
    var ahead := p.ahead - Min(qty, p.ahead);
    var rest := qty - Min(qty, p.ahead);
    if ahead <= 0.0 && rest > 0.0
    then Place(ahead, p.left - Min(rest, p.left), p.filled + Min(rest, p.left))
    else p.(ahead := ahead)
  }

  /** The part of a shrinking level that trades do not explain. */
  function Cancels(lv: Level, size: real): real {
    if size < lv.size then Max(0.0, (lv.size - size) - lv.traded) else 0.0
  }

  function Shrunk(m: Model, p: Place, lv: Level, size: real): Place {
    var cancels := Cancels(lv, size);
    if cancels > 0.0 then p.(ahead := Advance(m, p.ahead, lv.size, cancels)) else p
  }

  function NextLevel(lv: Level, e: Event): Level {
    match e
    case Trade(qty) => if qty > 0.0 then lv.(traded := lv.traded + qty) else lv
    case Depth(size) => Level(size, 0.0)
  }

  function NextPlace(m: Model, p: Place, lv: Level, e: Event): Place {
    match e
    case Trade(qty) => if qty > 0.0 then Traded(p, qty) else p
    case Depth(size) => Shrunk(m, p, lv, size)
  }

  function LevelAfter(lv: Level, es: seq<Event>): Level
    decreases |es|
  {
    if es == [] then lv else NextLevel(LevelAfter(lv, es[..|es| - 1]), es[|es| - 1])
  }

  function PlaceAfter(m: Model, p: Place, lv: Level, es: seq<Event>): Place
    decreases |es|
  {
    if es == [] then p
    else
      var before := es[..|es| - 1];
      NextPlace(m, PlaceAfter(m, p, lv, before), LevelAfter(lv, before), es[|es| - 1])
  }

  /** Reported sizes are not negative. */
  predicate Proper(e: Event) {
    e.Depth? ==> e.size >= 0.0
  }

  // ----- Bracketing

  /** `x` is no further back than `y` and has filled no less. */
  predicate NoWorse(x: Place, y: Place) {
    0.0 <= x.ahead <= y.ahead && x.filled >= y.filled && x.left + x.filled == y.left + y.filled && x.left >= 0.0
  }

  predicate Bracketed(f: Place, u: Place, b: Place) {
    NoWorse(f, u) && NoWorse(u, b)
  }

  /** The optimistic place is within what the level still holds. */
  predicate InLevel(p: Place, lv: Level) {
    lv.size >= 0.0 && lv.traded >= 0.0 && p.ahead <= Max(0.0, lv.size - lv.traded)
  }

  lemma {:induction false} TradeKeepsOrder(x: Place, y: Place, qty: real)
    requires NoWorse(x, y) && qty > 0.0
    ensures NoWorse(Traded(x, qty), Traded(y, qty))
  {
  }

  lemma {:induction false} TradeStaysInLevel(p: Place, lv: Level, qty: real)
    requires InLevel(p, lv) && p.ahead >= 0.0 && qty > 0.0
    ensures InLevel(Traded(p, qty), lv.(traded := lv.traded + qty))
  {
  }

  /** Cancelled volume moves the even guess no further than the optimistic one, as long as the queue
      ahead is within the level. */
  lemma {:induction false} UniformWithin(f: real, u: real, total: real, cancels: real)
    requires 0.0 <= f <= u && f <= total && 0.0 < cancels <= total
    ensures Advance(Front, f, total, cancels) <= Advance(Uniform, u, total, cancels) <= u
  {
    var k := cancels / total;
    assert k * total == cancels;
    assert 0.0 < k <= 1.0;
    assert cancels * (u / total) == k * u by {
      assert (u / total) * total == u;
    }
    assert (1.0 - k) * (u - f) >= 0.0;
    assert (1.0 - k) * (u - f) == (u - k * u) - (f - k * f);
    assert k * (total - f) >= 0.0;
    assert k * (total - f) == cancels - k * f;
    assert k * u >= 0.0;
    assert (1.0 - k) * u >= 0.0;
  }

  lemma {:induction false} DepthKeepsBrackets(f: Place, u: Place, b: Place, lv: Level, size: real)
    requires Bracketed(f, u, b) && InLevel(f, lv) && size >= 0.0
    ensures Bracketed(Shrunk(Front, f, lv, size), Shrunk(Uniform, u, lv, size), Shrunk(Back, b, lv, size))
    ensures InLevel(Shrunk(Front, f, lv, size), Level(size, 0.0))
  {
    var cancels := Cancels(lv, size);
    if cancels > 0.0 {
      UniformWithin(f.ahead, u.ahead, lv.size, cancels);
    }
  }

  /** An order that joins behind the whole level with no unreported trades: over every stream of
      trades and reported sizes, front is no worse than uniform and uniform no worse than back. */
  lemma {:induction false} StreamKeepsBrackets(p: Place, lv: Level, es: seq<Event>)
    requires p.ahead >= 0.0 && p.left >= 0.0 && InLevel(p, lv) && forall i :: 0 <= i < |es| ==> Proper(es[i])
    ensures Bracketed(PlaceAfter(Front, p, lv, es), PlaceAfter(Uniform, p, lv, es), PlaceAfter(Back, p, lv, es))
    ensures InLevel(PlaceAfter(Front, p, lv, es), LevelAfter(lv, es))
    decreases |es|
  {
    if es != [] {
      var before, e := es[..|es| - 1], es[|es| - 1];
      StreamKeepsBrackets(p, lv, before);
      var f, u := PlaceAfter(Front, p, lv, before), PlaceAfter(Uniform, p, lv, before);
      var b := PlaceAfter(Back, p, lv, before);
      var now := LevelAfter(lv, before);
      match e
      case Trade(qty) =>
        if qty > 0.0 {
          TradeKeepsOrder(f, u, qty);
          TradeKeepsOrder(u, b, qty);
          TradeStaysInLevel(f, now, qty);
        }
      case Depth(size) => DepthKeepsBrackets(f, u, b, now, size);
    }
  }

  /** How an order joins a level: behind its reported size. */
  function Join(lv: Level, qty: real): Place {
    Place(lv.size, qty, 0.0)
  }

  ghost predicate AlwaysBracketed(p: Place, lv: Level) {
    forall es: seq<Event> :: (forall i :: 0 <= i < |es| ==> Proper(es[i])) ==>
      Bracketed(PlaceAfter(Front, p, lv, es), PlaceAfter(Uniform, p, lv, es), PlaceAfter(Back, p, lv, es))
  }

  /** The stream that tells the guesses apart if trades were unreported at the join: the report of
      those trades, and then half the level cancelled. */
  function Telling(lv: Level): seq<Event> {
    var reported := Max(lv.size - lv.traded, lv.size / 2.0);
    [Depth(reported), Depth(reported / 2.0)]
  }

  lemma {:induction false} TellingTells(lv: Level, qty: real)
    requires lv.size > 0.0 && lv.traded > 0.0
    ensures PlaceAfter(Front, Join(lv, qty), lv, Telling(lv)).ahead
            > PlaceAfter(Uniform, Join(lv, qty), lv, Telling(lv)).ahead
  {
    var p, es, r := Join(lv, qty), Telling(lv), Max(lv.size - lv.traded, lv.size / 2.0);
    assert es[..1] == [Depth(r)] && [Depth(r)][..0] == [];
    assert 0.0 < r < lv.size;
    forall m: Model
      ensures PlaceAfter(m, p, lv, es) == p.(ahead := Advance(m, lv.size, r, r / 2.0))
    {
      assert PlaceAfter(m, p, lv, []) == p && LevelAfter(lv, []) == lv;
      assert PlaceAfter(m, p, lv, [Depth(r)]) == p;
      assert LevelAfter(lv, [Depth(r)]) == Level(r, 0.0);
    }
    assert (r / 2.0) * (lv.size / r) == lv.size / 2.0;
  }

  /** The guesses bracket each other over every stream exactly when the level had no unreported
      trades at the join, or was empty. */
  lemma {:induction false} BracketedIff(lv: Level, qty: real)
    requires lv.size >= 0.0 && lv.traded >= 0.0 && qty >= 0.0
    ensures AlwaysBracketed(Join(lv, qty), lv) <==> lv.traded == 0.0 || lv.size == 0.0
  {
    var p := Join(lv, qty);
    if lv.traded == 0.0 || lv.size == 0.0 {
      forall es: seq<Event> | forall i :: 0 <= i < |es| ==> Proper(es[i])
        ensures Bracketed(PlaceAfter(Front, p, lv, es), PlaceAfter(Uniform, p, lv, es), PlaceAfter(Back, p, lv, es))
      {
        StreamKeepsBrackets(p, lv, es);
      }
    } else {
      TellingTells(lv, qty);
      assert forall i :: 0 <= i < |Telling(lv)| ==> Proper(Telling(lv)[i]);
    }
  }
}
