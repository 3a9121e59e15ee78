/** The token bucket that limits requests: what it can grant within any window of time, and when a
    wait it announces is long enough. Time is in seconds, waits in nanoseconds. */
module RateLimiter {
  const SLACK: real := 0.000000001

  datatype Bucket = Bucket(tokens: real, last: real)

  function Min(a: real, b: real): real {
    if a <= b then a else b
  }

  /** What the rate earns in a span of time. */
  function Earned(rate: real, span: real): real {
    span * rate
  }

  function Refill(b: Bucket, capacity: real, rate: real, now: real): Bucket {
    Bucket(Min(capacity, b.tokens + Earned(rate, now - b.last)), now)
  }

  predicate Enough(b: Bucket, n: real) {
    b.tokens + SLACK >= n
  }

  function Take(b: Bucket, n: real): Bucket {
    if Enough(b, n) then b.(tokens := b.tokens - n) else b
  }

  /** A call of `try_acquire`. */
  datatype Call = Call(now: real, n: real)

  function Tried(b: Bucket, capacity: real, rate: real, c: Call): Bucket {
    Take(Refill(b, capacity, rate, c.now), c.n)
  }

  function Grant(b: Bucket, capacity: real, rate: real, c: Call): real {
    if Enough(Refill(b, capacity, rate, c.now), c.n) then c.n else 0.0
  }

  function After(b: Bucket, capacity: real, rate: real, cs: seq<Call>): Bucket
    decreases |cs|
  {
    if cs == [] then b else Tried(After(b, capacity, rate, cs[..|cs| - 1]), capacity, rate, cs[|cs| - 1])
  }

  /** What a run of calls was granted in all. */
  function Granted(b: Bucket, capacity: real, rate: real, cs: seq<Call>): real
    decreases |cs|
  {
    if cs == [] then 0.0
    else
      var before := cs[..|cs| - 1];
      Granted(b, capacity, rate, before) + Grant(After(b, capacity, rate, before), capacity, rate, cs[|cs| - 1])
  }

  /** The clock does not go back and requests are not negative. */
  predicate Ordered(b: Bucket, cs: seq<Call>) {
    && (forall i :: 0 <= i < |cs| ==> cs[i].now >= b.last && cs[i].n >= 0.0)
    && (forall i, j :: 0 <= i < j < |cs| ==> cs[i].now <= cs[j].now)
  }

  predicate Sane(b: Bucket, capacity: real) {
    -SLACK <= b.tokens <= capacity
  }

  lemma {:induction false} RefillBounds(b: Bucket, capacity: real, rate: real, now: real)
    requires Sane(b, capacity) && rate >= 0.0 && now >= b.last
    ensures var r := Refill(b, capacity, rate, now);
      Sane(r, capacity) && b.tokens <= r.tokens <= b.tokens + Earned(rate, now - b.last)
  {
    EarnedPositive(rate, now - b.last);
  }

  lemma {:induction false} EarnedPositive(rate: real, span: real)
    requires rate >= 0.0 && span >= 0.0
    ensures Earned(rate, span) >= 0.0
  {
  }

  lemma {:induction false} EarnedAdds(rate: real, x: real, y: real)
    ensures Earned(rate, x) + Earned(rate, y) == Earned(rate, x + y)
  {
  }

  lemma {:induction false} TryBalance(b: Bucket, capacity: real, rate: real, c: Call)
    requires Sane(b, capacity) && rate >= 0.0 && c.now >= b.last && c.n >= 0.0
    ensures var e := Tried(b, capacity, rate, c);
      && Sane(e, capacity) && e.last == c.now
      && Grant(b, capacity, rate, c) + e.tokens <= b.tokens + Earned(rate, c.now - b.last)
  {
    RefillBounds(b, capacity, rate, c.now);
  }

  /** A call takes what it is granted out of the refilled bucket, and it is granted all it asks for or
      nothing, the former exactly when that is there up to the slack. */
  lemma {:induction false} TryIsExact(b: Bucket, capacity: real, rate: real, c: Call)
    ensures var e, r := Tried(b, capacity, rate, c), Refill(b, capacity, rate, c.now);
      var got := Grant(b, capacity, rate, c);
      && e.tokens == r.tokens - got && e.last == c.now
      && (if r.tokens + SLACK >= c.n then got == c.n else got == 0.0)
  {
  }

  /** Refilling earns at the rate for the time since the last call, as far as the capacity goes. */
  lemma {:induction false} RefillIsExact(b: Bucket, capacity: real, rate: real, now: real)
    ensures var r, full := Refill(b, capacity, rate, now), b.tokens + (now - b.last) * rate;
      r.last == now && r.tokens == if full <= capacity then full else capacity
  {
  }

  /** Tokens and grants of a run balance against what was refilled since its start. */
  lemma {:induction false} RunBalance(b: Bucket, capacity: real, rate: real, cs: seq<Call>)
    requires Sane(b, capacity) && capacity >= 0.0 && rate >= 0.0 && Ordered(b, cs)
    ensures var e := After(b, capacity, rate, cs);
      && Sane(e, capacity) && e.last == (if cs == [] then b.last else cs[|cs| - 1].now)
      && Granted(b, capacity, rate, cs) + e.tokens <= b.tokens + Earned(rate, e.last - b.last)
    decreases |cs|
  {
    if cs != [] {
      var before, c := cs[..|cs| - 1], cs[|cs| - 1];
      RunBalance(b, capacity, rate, before);
      var mid := After(b, capacity, rate, before);
      TryBalance(mid, capacity, rate, c);
      EarnedAdds(rate, mid.last - b.last, c.now - mid.last);
    }
  }

  lemma {:induction false} WindowFrom(s: Bucket, capacity: real, rate: real, window: seq<Call>)
    requires Sane(s, capacity) && capacity >= 0.0 && rate >= 0.0 && Ordered(s, window) && window != []
    ensures Granted(s, capacity, rate, window)
            <= capacity + Earned(rate, window[|window| - 1].now - window[0].now) + SLACK
  {
    var start := Refill(s, capacity, rate, window[0].now);
    RefillBounds(s, capacity, rate, window[0].now);
    SameStart(s, start, capacity, rate, window);
    RunBalance(start, capacity, rate, window);
  }

  lemma {:induction false} OrderedParts(b: Bucket, before: seq<Call>, window: seq<Call>, s: Bucket)
    requires Ordered(b, before + window) && s.last == if before == [] then b.last else before[|before| - 1].now
    ensures Ordered(b, before) && Ordered(s, window)
  {
    var all := before + window;
    assert forall i :: 0 <= i < |before| ==> before[i] == all[i];
    assert forall i :: 0 <= i < |window| ==> window[i] == all[|before| + i];
  }

  /** Between any two calls of any run, both included, no more is granted than the capacity plus what
      the rate allows for that time plus the comparison slack. */
  lemma {:induction false} WindowBound(b: Bucket, capacity: real, rate: real, before: seq<Call>, window: seq<Call>)
    requires Sane(b, capacity) && capacity >= 0.0 && rate >= 0.0 && Ordered(b, before + window) && window != []
    ensures Granted(After(b, capacity, rate, before), capacity, rate, window)
         <= capacity + Earned(rate, window[|window| - 1].now - window[0].now) + SLACK
  {
    var s := After(b, capacity, rate, before);
    OrderedParts(b, before, window, Bucket(0.0, if before == [] then b.last else before[|before| - 1].now));
    RunBalance(b, capacity, rate, before);
    WindowFrom(s, capacity, rate, window);
  }

  /** A bucket that is refilled at the time of the first call behaves the same from there on. */
  lemma {:induction false} SameStart(s: Bucket, start: Bucket, capacity: real, rate: real, cs: seq<Call>)
    requires cs != [] && start == Refill(s, capacity, rate, cs[0].now)
    ensures Granted(s, capacity, rate, cs) == Granted(start, capacity, rate, cs)
    ensures After(s, capacity, rate, cs) == After(start, capacity, rate, cs)
    decreases |cs|
  {
    if |cs| == 1 {
      assert cs[..0] == [];
      assert Refill(start, capacity, rate, cs[0].now) == start;
    } else {
      SameStart(s, start, capacity, rate, cs[..|cs| - 1]);
    }
  }

  // ----- Waiting

  datatype Wait = Never | Nanos(n: int)

  function Ceil(x: real): int {
    -((-x).Floor)
  }

  /** `time_until` on a refilled bucket. */
  function TimeUntil(b: Bucket, rate: real, n: real): Wait {
    if b.tokens >= n then Nanos(0)
    else if rate <= 0.0 then Never
    else Nanos(Ceil((n - b.tokens) / rate * 1000000000.0))
  }

  /** When a caller that was told to wait at `b.last` is back, `oversleep` later than announced. */
  function WakeTime(b: Bucket, rate: real, n: real, oversleep: real): real {
    match TimeUntil(b, rate, n)
    case Never => b.last
    case Nanos(w) => b.last + w as real / 1000000000.0 + oversleep
  }

  lemma {:induction false} CeilCovers(deficit: real, rate: real)
    requires deficit > 0.0 && rate > 0.0
    ensures Earned(rate, Ceil(deficit / rate * 1000000000.0) as real / 1000000000.0) >= deficit
    ensures Ceil(deficit / rate * 1000000000.0) >= 0
  {
    var x := deficit / rate;
    assert x * rate == deficit && x > 0.0;
    var w := Ceil(x * 1000000000.0) as real / 1000000000.0;
    assert w >= x;
    assert (w - x) * rate >= 0.0;
  }

  /** The announced wait is the shortest in whole nanoseconds after which the deficit is earned. */
  lemma {:induction false} WaitIsShortest(b: Bucket, rate: real, n: real)
    requires rate > 0.0
    ensures var w := TimeUntil(b, rate, n);
      && w.Nanos? && w.n >= 0
      && (w.n == 0 <==> b.tokens >= n)
      && (w.n > 0 ==> Earned(rate, (w.n - 1) as real / 1000000000.0) < n - b.tokens
                      <= Earned(rate, w.n as real / 1000000000.0))
  {
    if b.tokens < n {
      var deficit := n - b.tokens;
      CeilCovers(deficit, rate);
      var x := deficit / rate;
      assert x * rate == deficit && x > 0.0;
      CeilIsNext(x * 1000000000.0);
      EarnedLess(rate, (Ceil(x * 1000000000.0) - 1) as real / 1000000000.0, x);
    }
  }

  lemma {:induction false} CeilIsNext(y: real)
    ensures y <= Ceil(y) as real < y + 1.0
  {
  }

  lemma {:induction false} EarnedLess(rate: real, x: real, y: real)
    requires rate > 0.0 && x < y
    ensures Earned(rate, x) < y * rate
  {
    assert (y - x) * rate > 0.0;
  }

  /** With a positive rate, waiting as long as announced, or longer, is enough exactly for requests
      that the capacity can ever cover. */
  lemma {:induction false} WaitSufficesIff(b: Bucket, capacity: real, rate: real, n: real, wake: real)
    requires rate > 0.0 && b.tokens <= capacity && !Enough(b, n)
    requires TimeUntil(b, rate, n).Nanos? && wake >= b.last + TimeUntil(b, rate, n).n as real / 1000000000.0
    ensures Enough(Refill(b, capacity, rate, wake), n) <==> n <= capacity + SLACK
  {
    CeilCovers(n - b.tokens, rate);
    var w := TimeUntil(b, rate, n).n as real / 1000000000.0;
    EarnedPositive(rate, wake - b.last - w);
    EarnedAdds(rate, w, wake - b.last - w);
  }

  /** Two tokens from a bucket that holds one: however long the caller waits, there is never enough. */
  lemma {:induction false} TooLargeWaitsForever(wake: real)
    ensures var b := Bucket(1.0, 0.0);
      && TimeUntil(b, 1.0, 2.0) == Nanos(1000000000)
      && !Enough(Refill(b, 1.0, 1.0, wake), 2.0)
  {
    assert Ceil((2.0 - 1.0) / 1.0 * 1000000000.0) == 1000000000;
  }

  // ----- The limiter object

  class TokenBucketRateLimiter {
    const capacity: real
    const rate: real
    var tokens: real
    var lastRefill: real

    function Now(): Bucket
      reads this
    {
      Bucket(tokens, lastRefill)
    }

    constructor (capacity: real, rate: real, now: real)
      ensures this.capacity == capacity && this.rate == rate && Now() == Bucket(capacity, now)
    {
      this.capacity, this.rate, tokens, lastRefill := capacity, rate, capacity, now;
    }

    /** `refill_locked` */
    method RefillLocked(now: real)
      modifies this
      ensures Now() == Refill(old(Now()), capacity, rate, now)
    {
      var elapsed := now - lastRefill;
      tokens := Min(capacity, tokens + Earned(rate, elapsed));
      lastRefill := now;
    }

    /** `try_acquire` */
    method TryAcquire(n: real, now: real) returns (ok: bool)
      modifies this
      ensures Now() == Tried(old(Now()), capacity, rate, Call(now, n))
      ensures ok <==> Enough(Refill(old(Now()), capacity, rate, now), n)
    {
      RefillLocked(now);
      ok := tokens + SLACK >= n;
      if ok {
        tokens := tokens - n;
      }
    }

    /** `time_until` */
    method Until(n: real, now: real) returns (w: Wait)
      modifies this
      ensures Now() == Refill(old(Now()), capacity, rate, now) && w == TimeUntil(Now(), rate, n)
    {
      RefillLocked(now);
      if tokens >= n {
        return Nanos(0);
      }
      if rate <= 0.0 {
        return Never;
      }
      var deficit := n - tokens;
      w := Nanos(Ceil(deficit / rate * 1000000000.0));
    }

    /** `acquire_blocking` for a request the capacity can cover: after at most one wait it has the
        tokens, unless the rate is not positive, when it returns without them. */
    method AcquireBlocking(n: real, now: real, oversleep: real) returns (granted: bool)
      requires tokens <= capacity && n <= capacity + SLACK && oversleep >= 0.0
      modifies this
      ensures var b := Refill(old(Now()), capacity, rate, now);
        && (granted <==> Enough(b, n) || rate > 0.0)
        && (!granted ==> Now() == b)
        && (Enough(b, n) ==> Now() == b.(tokens := b.tokens - n))
        && (granted && !Enough(b, n) ==>
              var woken := Refill(b, capacity, rate, WakeTime(b, rate, n, oversleep));
              Enough(woken, n) && Now() == woken.(tokens := woken.tokens - n))
    {
      granted := TryAcquire(n, now);
      if granted {
        return;
      }
      ghost var b := Now();
      var w := Until(n, now);
      assert Now() == b;
      if w.Never? {
        return;
      }
      var wake := now + w.n as real / 1000000000.0 + oversleep;
      WaitSufficesIff(b, capacity, rate, n, wake);
      granted := TryAcquire(n, wake);
    }
  }
}
