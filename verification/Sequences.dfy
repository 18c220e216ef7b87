/** Removing one element of a sequence, and how that changes sums over it. */
module Sequences {

  function Without<T>(xs: seq<T>, i: nat): seq<T>
    requires i < |xs|
  {
    xs[..i] + xs[i + 1..]
  }

  function Sum<T>(xs: seq<T>, w: T -> nat): nat {
    if xs == [] then 0 else w(xs[0]) + Sum(xs[1..], w)
  }

  lemma {:induction false} SumAppend<T>(xs: seq<T>, ys: seq<T>, w: T -> nat)
    ensures Sum(xs + ys, w) == Sum(xs, w) + Sum(ys, w)
  {
    if xs == [] {
      assert xs + ys == ys;
    } else {
      SumAppend(xs[1..], ys, w);
      assert (xs + ys)[1..] == xs[1..] + ys;
    }
  }

  lemma SumOne<T>(x: T, w: T -> nat)
    ensures Sum([x], w) == w(x)
  {
  }

  /** Putting an element in front, as LPUSH does. */
  lemma SumPush<T>(x: T, xs: seq<T>, w: T -> nat)
    ensures Sum([x] + xs, w) == w(x) + Sum(xs, w)
  {
    SumAppend([x], xs, w);
    SumOne(x, w);
  }

  lemma SumWithout<T>(xs: seq<T>, i: nat, w: T -> nat)
    requires i < |xs|
    ensures Sum(xs, w) == Sum(Without(xs, i), w) + w(xs[i])
  {
    assert xs == xs[..i] + ([xs[i]] + xs[i + 1..]);
    SumAppend(xs[..i], [xs[i]] + xs[i + 1..], w);
    SumAppend([xs[i]], xs[i + 1..], w);
    SumAppend(xs[..i], xs[i + 1..], w);
    SumOne(xs[i], w);
  }

  lemma SumUpdate<T>(xs: seq<T>, i: nat, y: T, w: T -> nat)
    requires i < |xs|
    ensures Sum(xs[i := y], w) + w(xs[i]) == Sum(xs, w) + w(y)
  {
    SumWithout(xs, i, w);
    SumWithout(xs[i := y], i, w);
    assert Without(xs[i := y], i) == Without(xs, i);
  }

  /** Taking the last element off, as BRPOP does. */
  lemma SumDropLast<T>(xs: seq<T>, w: T -> nat)
    requires xs != []
    ensures Sum(xs, w) == Sum(xs[..|xs| - 1], w) + w(xs[|xs| - 1])
  {
    SumWithout(xs, |xs| - 1, w);
    assert Without(xs, |xs| - 1) == xs[..|xs| - 1];
  }

  lemma {:induction false} SumMember<T>(xs: seq<T>, x: T, w: T -> nat)
    requires x in xs
    ensures Sum(xs, w) >= w(x)
  {
    var i :| 0 <= i < |xs| && xs[i] == x;
    SumWithout(xs, i, w);
  }

  lemma WithoutKeeps<T>(xs: seq<T>, i: nat, x: T)
    requires i < |xs| && x in xs && x != xs[i]
    ensures x in Without(xs, i)
  {
    var j :| 0 <= j < |xs| && xs[j] == x;
    if j < i {
      assert Without(xs, i)[j] == x;
    } else {
      assert Without(xs, i)[j - 1] == x;
    }
  }

  lemma UpdateKeeps<T>(xs: seq<T>, i: nat, y: T, x: T)
    requires i < |xs| && x in xs && x != xs[i]
    ensures x in xs[i := y]
  {
    var j :| 0 <= j < |xs| && xs[j] == x;
    assert xs[i := y][j] == x;
  }

  lemma {:induction false} SumBound<T>(xs: seq<T>, w: T -> nat, c: nat, v: T -> nat)
    requires forall x :: x in xs ==> w(x) <= c * v(x)
    ensures Sum(xs, w) <= c * Sum(xs, v)
  {
    if xs != [] {
      SumBound(xs[1..], w, c, v);
      assert w(xs[0]) <= c * v(xs[0]);
      assert c * (v(xs[0]) + Sum(xs[1..], v)) == c * v(xs[0]) + c * Sum(xs[1..], v);
    }
  }
}
