/** Occurrence counts: the severity tallies are counts of exact key matches. */
module Counting {

  /** Number of positions of `xs` holding exactly `x`. */
  function Count<T(==)>(xs: seq<T>, x: T): (n: nat)
    ensures n <= |xs|
    ensures n == 0 <==> forall i :: 0 <= i < |xs| ==> xs[i] != x
  {
    if xs == [] then 0
    else Count(xs[..|xs| - 1], x) + (if xs[|xs| - 1] == x then 1 else 0)
  }

  /** Number of positions of `xs` holding a member of `keys`. */
  function CountAny<T(==)>(xs: seq<T>, keys: set<T>): (n: nat)
    ensures n <= |xs|
    ensures n == |xs| <==> forall i :: 0 <= i < |xs| ==> xs[i] in keys
  {
    if xs == [] then 0
    else CountAny(xs[..|xs| - 1], keys) + (if xs[|xs| - 1] in keys then 1 else 0)
  }

  /** Counting three distinct keys separately adds up to counting them together. */
  lemma {:induction false} ThreeCountsAddUp<T>(xs: seq<T>, a: T, b: T, c: T)
    requires a != b && a != c && b != c
    ensures Count(xs, a) + Count(xs, b) + Count(xs, c) == CountAny(xs, {a, b, c})
  {
    if xs != [] {
      ThreeCountsAddUp(xs[..|xs| - 1], a, b, c);
    }
  }

  /** Counting four distinct keys separately adds up to counting them together. */
  lemma {:induction false} FourCountsAddUp<T>(xs: seq<T>, a: T, b: T, c: T, d: T)
    requires a != b && a != c && a != d && b != c && b != d && c != d
    ensures Count(xs, a) + Count(xs, b) + Count(xs, c) + Count(xs, d) == CountAny(xs, {a, b, c, d})
  {
    if xs != [] {
      FourCountsAddUp(xs[..|xs| - 1], a, b, c, d);
    }
  }

  /** Counts add up over a concatenation. */
  lemma {:induction false} CountConcat<T>(a: seq<T>, b: seq<T>, x: T)
    ensures Count(a + b, x) == Count(a, x) + Count(b, x)
  {
    if b != [] {
      CountConcat(a, b[..|b| - 1], x);
      assert (a + b)[..|a + b| - 1] == a + b[..|b| - 1];
    } else {
      assert a + b == a;
    }
  }
}
