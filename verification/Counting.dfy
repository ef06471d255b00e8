/** Counting the elements of a sequence that satisfy a predicate. */
module Counting {

  function Count<T>(p: T -> bool, xs: seq<T>): nat {
    if xs == [] then 0
    else Count(p, xs[..|xs| - 1]) + if p(xs[|xs| - 1]) then 1 else 0
  }

  /** Replacing one element changes the count by what the two elements contribute. */
  lemma {:induction false} CountUpdate<T>(p: T -> bool, xs: seq<T>, i: nat, x: T)
    requires i < |xs|
    ensures Count(p, xs[i := x]) + (if p(xs[i]) then 1 else 0) == Count(p, xs) + if p(x) then 1 else 0
  {
    var n := |xs| - 1;
    if i < n {
      assert xs[i := x][..n] == xs[..n][i := x];
      CountUpdate(p, xs[..n], i, x);
    } else {
      assert xs[i := x][..n] == xs[..n];
    }
  }

  /** A count says how many, so it tells whether there are none, all, or several. */
  lemma {:induction false} CountBounds<T>(p: T -> bool, xs: seq<T>)
    ensures Count(p, xs) <= |xs|
    ensures Count(p, xs) == 0 <==> forall i :: 0 <= i < |xs| ==> !p(xs[i])
    ensures Count(p, xs) == |xs| <==> forall i :: 0 <= i < |xs| ==> p(xs[i])
    ensures Count(p, xs) <= 1 ==> forall i, j :: 0 <= i < |xs| && 0 <= j < |xs| && p(xs[i]) && p(xs[j]) ==> i == j
  {
    if xs != [] {
      var n := |xs| - 1;
      CountBounds(p, xs[..n]);
      assert forall i :: 0 <= i < n ==> xs[..n][i] == xs[i];
    }
  }

  /** Two disjoint predicates that together hold everywhere. */
  lemma {:induction false} CountDisjoint<T>(p: T -> bool, q: T -> bool, xs: seq<T>)
    requires forall x :: x in xs ==> !(p(x) && q(x))
    ensures Count(p, xs) + Count(q, xs) <= |xs|
    ensures Count(p, xs) + Count(q, xs) == |xs| <==> forall i :: 0 <= i < |xs| ==> p(xs[i]) || q(xs[i])
  {
    if xs != [] {
      var n := |xs| - 1;
      CountDisjoint(p, q, xs[..n]);
      assert forall i :: 0 <= i < n ==> xs[..n][i] == xs[i];
    }
  }

  function Sum(xs: seq<int>): int {
    if xs == [] then 0 else Sum(xs[..|xs| - 1]) + xs[|xs| - 1]
  }

  /** If no element grows and element x shrinks by at least d, so does the sum. */
  lemma {:induction false} SumShrinks(xs: seq<int>, ys: seq<int>, x: nat, d: nat)
    requires |xs| == |ys| && x < |xs|
    requires forall i :: 0 <= i < |xs| ==> ys[i] <= xs[i]
    requires ys[x] + d <= xs[x]
    ensures Sum(ys) + d <= Sum(xs)
  {
    var n := |xs| - 1;
    if x < n {
      SumShrinks(xs[..n], ys[..n], x, d);
    } else if n > 0 {
      SumShrinks(xs[..n], ys[..n], 0, 0);
    }
  }

  lemma {:induction false} SumUpdate(xs: seq<int>, x: nat, v: int)
    requires x < |xs|
    ensures Sum(xs[x := v]) == Sum(xs) - xs[x] + v
  {
    var n := |xs| - 1;
    if x < n {
      assert xs[x := v][..n] == xs[..n][x := v];
      SumUpdate(xs[..n], x, v);
    } else {
      assert xs[x := v][..n] == xs[..n];
    }
  }

  lemma {:induction false} SumBounds(xs: seq<int>, lo: int, hi: int)
    requires forall i :: 0 <= i < |xs| ==> lo <= xs[i] <= hi
    ensures lo * |xs| <= Sum(xs) <= hi * |xs|
  {
    if xs != [] {
      var n := |xs| - 1;
      SumBounds(xs[..n], lo, hi);
      assert lo * (n + 1) == lo * n + lo && hi * (n + 1) == hi * n + hi;
    }
  }
}
