/** Finite sums of a real-valued measure over a sequence, as Python's `sum(... for x in xs)`. */
module Sums {

  function Min(x: real, y: real): (m: real)
    ensures m <= x && m <= y && (m == x || m == y)
  {
    if x <= y then x else y
  }

  function Max(x: real, y: real): (m: real)
    ensures x <= m && y <= m && (m == x || m == y)
  {
    if x <= y then y else x
  }

  function Abs(x: real): (a: real)
    ensures 0.0 <= a && (a == x || a == -x)
  {
    if x < 0.0 then -x else x
  }

  function Sum<T>(xs: seq<T>, f: T -> real): real {
    if xs == [] then 0.0 else Sum(xs[..|xs| - 1], f) + f(xs[|xs| - 1])
  }

  lemma {:induction false} SumAppend<T>(xs: seq<T>, ys: seq<T>, f: T -> real)
    ensures Sum(xs + ys, f) == Sum(xs, f) + Sum(ys, f)
  {
    if ys == [] {
      assert xs + ys == xs;
    } else {
      assert (xs + ys)[..|xs + ys| - 1] == xs + ys[..|ys| - 1];
      SumAppend(xs, ys[..|ys| - 1], f);
    }
  }

  lemma SumSnoc<T>(xs: seq<T>, x: T, f: T -> real)
    ensures Sum(xs + [x], f) == Sum(xs, f) + f(x)
  {
    assert (xs + [x])[..|xs|] == xs;
  }

  lemma {:induction false} SumMonotone<T>(xs: seq<T>, f: T -> real, g: T -> real)
    requires forall x :: x in xs ==> f(x) <= g(x)
    ensures Sum(xs, f) <= Sum(xs, g)
  {
    if xs != [] {
      assert xs[|xs| - 1] in xs;
      SumMonotone(xs[..|xs| - 1], f, g);
    }
  }

  lemma SumEqual<T>(xs: seq<T>, f: T -> real, g: T -> real)
    requires forall x :: x in xs ==> f(x) == g(x)
    ensures Sum(xs, f) == Sum(xs, g)
  {
    SumMonotone(xs, f, g);
    SumMonotone(xs, g, f);
  }

  /** A pointwise bound that is strict somewhere is strict on the sums. */
  lemma {:induction false} SumStrict<T>(xs: seq<T>, f: T -> real, g: T -> real, y: T)
    requires forall x :: x in xs ==> f(x) <= g(x)
    requires y in xs && f(y) < g(y)
    ensures Sum(xs, f) < Sum(xs, g)
  {
    var init, last := xs[..|xs| - 1], xs[|xs| - 1];
    assert last in xs;
    assert xs == init + [last];
    if y in init {
      SumStrict(init, f, g, y);
    } else {
      SumMonotone(init, f, g);
    }
  }

  /** If `f` is above `g` somewhere but not in total, it is below `g` somewhere else. */
  lemma SumTradeOff<T>(xs: seq<T>, f: T -> real, g: T -> real, y: T) returns (z: T)
    requires Sum(xs, f) <= Sum(xs, g)
    requires y in xs && g(y) < f(y)
    ensures z in xs && f(z) < g(z)
  {
    if forall x :: x in xs ==> g(x) <= f(x) {
      SumStrict(xs, g, f, y);
    }
    z :| z in xs && f(z) < g(z);
  }

  lemma {:induction false} SumNonNegative<T>(xs: seq<T>, f: T -> real)
    requires forall x :: x in xs ==> f(x) >= 0.0
    ensures Sum(xs, f) >= 0.0
  {
    if xs != [] {
      assert xs[|xs| - 1] in xs;
      SumNonNegative(xs[..|xs| - 1], f);
    }
  }

  /** A product the solver can be told not to multiply out. */
  function Times(k: real, x: real): real {
    k * x
  }

  lemma TimesIs(k: real, x: real)
    ensures Times(k, x) == k * x
  {
  }

  lemma TimesZero(k: real)
    ensures Times(k, 0.0) == 0.0
  {
  }

  lemma Distribute(k: real, x: real, y: real)
    ensures Times(k, x + y) == Times(k, x) + Times(k, y)
    ensures Times(k, x - y) == Times(k, x) - Times(k, y)
  {
  }

  lemma {:induction false} SumScale<T>(xs: seq<T>, f: T -> real, k: real, g: T -> real)
    requires forall x :: x in xs ==> g(x) == k * f(x)
    ensures Sum(xs, g) == k * Sum(xs, f)
  {
    if xs != [] {
      var init, last := xs[..|xs| - 1], xs[|xs| - 1];
      assert last in xs;
      SumScale(init, f, k, g);
      assert k * (Sum(init, f) + f(last)) == k * Sum(init, f) + k * f(last);
    }
  }

  lemma {:induction false} SumPlus<T>(xs: seq<T>, f: T -> real, g: T -> real, h: T -> real)
    requires forall x :: x in xs ==> h(x) == f(x) + g(x)
    ensures Sum(xs, h) == Sum(xs, f) + Sum(xs, g)
  {
    if xs != [] {
      assert xs[|xs| - 1] in xs;
      SumPlus(xs[..|xs| - 1], f, g, h);
    }
  }

  lemma MultisetRemove<T>(ys: seq<T>, j: nat)
    requires j < |ys|
    ensures multiset(ys[..j] + ys[j + 1..]) == multiset(ys) - multiset{ys[j]}
  {
    assert ys == ys[..j] + [ys[j]] + ys[j + 1..];
    assert multiset(ys) == multiset(ys[..j]) + multiset{ys[j]} + multiset(ys[j + 1..]);
  }

  lemma SumRemove<T>(ys: seq<T>, j: nat, f: T -> real)
    requires j < |ys|
    ensures Sum(ys, f) == Sum(ys[..j] + ys[j + 1..], f) + f(ys[j])
  {
    hide Sum;
    var left, right := ys[..j], ys[j + 1..];
    assert ys == left + [ys[j]] + right;
    SumAppend(left + [ys[j]], right, f);
    SumSnoc(left, ys[j], f);
    SumAppend(left, right, f);
  }

  /** The order of the elements is irrelevant to the sum. */
  lemma {:induction false} SumPermutation<T>(xs: seq<T>, ys: seq<T>, f: T -> real)
    requires multiset(xs) == multiset(ys)
    ensures Sum(xs, f) == Sum(ys, f)
    decreases |xs|
  {
    if xs == [] {
      assert |multiset(ys)| == 0;
    } else {
      var init, last := xs[..|xs| - 1], xs[|xs| - 1];
      assert xs == init + [last];
      assert last in multiset(ys);
      var j :| 0 <= j < |ys| && ys[j] == last;
      SumRemove(ys, j, f);
      MultisetRemove(ys, j);
      assert multiset(init) == multiset(xs) - multiset{last};
      SumPermutation(init, ys[..j] + ys[j + 1..], f);
    }
  }
}
