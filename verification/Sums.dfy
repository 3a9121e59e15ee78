/** Sums of weights over sequences, and counts. */
module Sums {
  function Sum<T>(xs: seq<T>, w: T -> real): real {
    if xs == [] then 0.0 else w(xs[0]) + Sum(xs[1..], w)
  }

  lemma {:induction false} SumConcat<T>(xs: seq<T>, ys: seq<T>, w: T -> real)
    ensures Sum(xs + ys, w) == Sum(xs, w) + Sum(ys, w)
  {
    if xs == [] {
      assert xs + ys == ys;
    } else {
      assert (xs + ys)[1..] == xs[1..] + ys;
      SumConcat(xs[1..], ys, w);
    }
  }

  lemma {:induction false} SumOne<T>(x: T, w: T -> real)
    ensures Sum([x], w) == w(x)
  {
    assert [x][1..] == [];
  }

  lemma {:induction false} SumAppend<T>(xs: seq<T>, x: T, w: T -> real)
    ensures Sum(xs + [x], w) == Sum(xs, w) + w(x)
  {
    SumConcat(xs, [x], w);
    SumOne(x, w);
  }

  lemma {:induction false} SumSplit<T>(xs: seq<T>, i: nat, w: T -> real)
    requires i < |xs|
    ensures Sum(xs, w) == Sum(xs[..i], w) + w(xs[i]) + Sum(xs[i + 1..], w)
  {
    assert xs == xs[..i] + ([xs[i]] + xs[i + 1..]);
    SumConcat(xs[..i], [xs[i]] + xs[i + 1..], w);
    SumConcat([xs[i]], xs[i + 1..], w);
    SumOne(xs[i], w);
  }

  lemma {:induction false} SumUpdate<T>(xs: seq<T>, i: nat, x: T, w: T -> real)
    requires i < |xs|
    ensures Sum(xs[i := x], w) == Sum(xs, w) - w(xs[i]) + w(x)
  {
    SumSplit(xs, i, w);
    SumSplit(xs[i := x], i, w);
    assert xs[i := x][..i] == xs[..i] && xs[i := x][i + 1..] == xs[i + 1..];
  }

  lemma {:induction false} SumRemove<T>(xs: seq<T>, i: nat, w: T -> real)
    requires i < |xs|
    ensures Sum(xs[..i] + xs[i + 1..], w) == Sum(xs, w) - w(xs[i])
  {
    SumSplit(xs, i, w);
    SumConcat(xs[..i], xs[i + 1..], w);
  }

  lemma {:induction false} TakenOut<T>(xs: seq<T>, i: nat)
    requires i < |xs|
    ensures multiset(xs[..i] + xs[i + 1..]) == multiset(xs) - multiset{xs[i]}
  {
    assert xs == xs[..i] + ([xs[i]] + xs[i + 1..]);
  }

  lemma {:induction false} TakenFirst<T>(xs: seq<T>)
    requires xs != []
    ensures multiset(xs[1..]) == multiset(xs) - multiset{xs[0]}
  {
    assert xs == [xs[0]] + xs[1..];
  }

  /** A sum does not depend on the order. */
  lemma {:induction false} SumReordered<T>(xs: seq<T>, ys: seq<T>, w: T -> real)
    requires multiset(xs) == multiset(ys)
    ensures Sum(xs, w) == Sum(ys, w)
    decreases |xs|
  {
    assert |multiset(xs)| == |xs| && |multiset(ys)| == |ys|;
    if xs != [] {
      assert xs[0] in multiset(xs);
      SumTakenOut(xs, ys, w);
    }
  }

  lemma {:induction false} SumTakenOut<T>(xs: seq<T>, ys: seq<T>, w: T -> real)
    requires multiset(xs) == multiset(ys) && xs != [] && xs[0] in ys
    ensures Sum(xs, w) == Sum(ys, w)
    decreases |xs|, 0
  {
    var i :| 0 <= i < |ys| && ys[i] == xs[0];
    TakenFirst(xs);
    TakenOut(ys, i);
    SumReordered(xs[1..], ys[..i] + ys[i + 1..], w);
    SumRemove(ys, i, w);
  }

  lemma {:induction false} SumNonNegative<T>(xs: seq<T>, w: T -> real)
    requires forall i :: 0 <= i < |xs| ==> w(xs[i]) >= 0.0
    ensures Sum(xs, w) >= 0.0
  {
    if xs != [] {
      SumNonNegative(xs[1..], w);
    }
  }

  /** One non-negative weight among non-negative weights is at most their sum. */
  lemma {:induction false} SumAtLeast<T>(xs: seq<T>, i: nat, w: T -> real)
    requires i < |xs| && forall j :: 0 <= j < |xs| ==> w(xs[j]) >= 0.0
    ensures Sum(xs, w) >= w(xs[i])
  {
    SumSplit(xs, i, w);
    SumNonNegative(xs[..i], w);
    SumNonNegative(xs[i + 1..], w);
  }

  function Count<T>(xs: seq<T>, p: T -> bool): nat {
    if xs == [] then 0 else (if p(xs[0]) then 1 else 0) + Count(xs[1..], p)
  }

  lemma {:induction false} CountConcat<T>(xs: seq<T>, ys: seq<T>, p: T -> bool)
    ensures Count(xs + ys, p) == Count(xs, p) + Count(ys, p)
  {
    if xs == [] {
      assert xs + ys == ys;
    } else {
      assert (xs + ys)[1..] == xs[1..] + ys;
      CountConcat(xs[1..], ys, p);
    }
  }

  lemma {:induction false} CountSplit<T>(xs: seq<T>, i: nat, p: T -> bool)
    requires i < |xs|
    ensures Count(xs, p) == Count(xs[..i], p) + (if p(xs[i]) then 1 else 0) + Count(xs[i + 1..], p)
  {
    assert xs == xs[..i] + ([xs[i]] + xs[i + 1..]);
    CountConcat(xs[..i], [xs[i]] + xs[i + 1..], p);
    assert ([xs[i]] + xs[i + 1..])[1..] == xs[i + 1..];
  }

  lemma {:induction false} CountUpdate<T>(xs: seq<T>, i: nat, x: T, p: T -> bool)
    requires i < |xs|
    ensures Count(xs[i := x], p) + (if p(xs[i]) then 1 else 0) == Count(xs, p) + if p(x) then 1 else 0
  {
    CountSplit(xs, i, p);
    CountSplit(xs[i := x], i, p);
    assert xs[i := x][..i] == xs[..i] && xs[i := x][i + 1..] == xs[i + 1..];
  }

  lemma {:induction false} CountRemove<T>(xs: seq<T>, i: nat, p: T -> bool)
    requires i < |xs|
    ensures Count(xs[..i] + xs[i + 1..], p) + (if p(xs[i]) then 1 else 0) == Count(xs, p)
  {
    CountSplit(xs, i, p);
    CountConcat(xs[..i], xs[i + 1..], p);
  }

  lemma {:induction false} CountImplies<T>(xs: seq<T>, p: T -> bool, q: T -> bool)
    requires forall i :: 0 <= i < |xs| && p(xs[i]) ==> q(xs[i])
    ensures Count(xs, p) <= Count(xs, q)
  {
    if xs != [] {
      CountImplies(xs[1..], p, q);
    }
  }
}
