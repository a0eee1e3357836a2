/** Exact sums over sequences, for money. */
module Sums {

  function Sum<T>(f: T -> real, s: seq<T>): real {
    if s == [] then 0.0 else Sum(f, s[..|s| - 1]) + f(s[|s| - 1])
  }

  lemma {:induction false} SumAppend<T>(f: T -> real, s: seq<T>, x: T)
    ensures Sum(f, s + [x]) == Sum(f, s) + f(x)
  {
    assert (s + [x])[..|s|] == s;
  }

  lemma {:induction false} SumConcat<T>(f: T -> real, a: seq<T>, b: seq<T>)
    ensures Sum(f, a + b) == Sum(f, a) + Sum(f, b)
  {
    if b == [] {
      assert a + b == a;
    } else {
      var n := |b| - 1;
      SumConcat(f, a, b[..n]);
      SumAppend(f, a + b[..n], b[n]);
      assert a + b == a + b[..n] + [b[n]];
    }
  }

  lemma {:induction false} SumRemove<T>(f: T -> real, s: seq<T>, i: nat)
    requires i < |s|
    ensures Sum(f, s) == Sum(f, s[..i] + s[i + 1..]) + f(s[i])
  {
    assert s == s[..i] + [s[i]] + s[i + 1..];
    SumConcat(f, s[..i] + [s[i]], s[i + 1..]);
    SumAppend(f, s[..i], s[i]);
    SumConcat(f, s[..i], s[i + 1..]);
  }

  lemma WithoutIndex<T>(s: seq<T>, i: nat)
    requires i < |s|
    ensures multiset(s[..i] + s[i + 1..]) == multiset(s) - multiset{s[i]}
    ensures s[i] in multiset(s)
  {
    assert s == s[..i] + [s[i]] + s[i + 1..];
  }

  /** A sum does not depend on the order of its terms. */
  lemma {:induction false} SumPermutation<T>(f: T -> real, a: seq<T>, b: seq<T>)
    requires multiset(a) == multiset(b)
    ensures Sum(f, a) == Sum(f, b)
  {
    assert |multiset(a)| == |a| && |multiset(b)| == |b|;
    if a != [] {
      var n := |a| - 1;
      WithoutIndex(a, n);
      var i :| 0 <= i < |b| && b[i] == a[n];
      WithoutIndex(b, i);
      assert a[..n] + a[n + 1..] == a[..n];
      SumPermutation(f, a[..n], b[..i] + b[i + 1..]);
      SumRemove(f, b, i);
    }
  }

  lemma {:induction false} SumNonNegative<T>(f: T -> real, s: seq<T>)
    requires forall x | x in s :: f(x) >= 0.0
    ensures Sum(f, s) >= 0.0
  {
    if s != [] { SumNonNegative(f, s[..|s| - 1]); }
  }

  lemma {:induction false} SumZero<T>(f: T -> real, s: seq<T>)
    requires forall x | x in s :: f(x) == 0.0
    ensures Sum(f, s) == 0.0
  {
    if s != [] { SumZero(f, s[..|s| - 1]); }
  }

  lemma {:induction false} SumAtMost<T>(f: T -> real, g: T -> real, s: seq<T>)
    requires forall x | x in s :: f(x) <= g(x)
    ensures Sum(f, s) <= Sum(g, s)
  {
    if s != [] { SumAtMost(f, g, s[..|s| - 1]); }
  }

  /** Equal multisets may be summed over a split: multiset(a) == multiset(b) + multiset(c). */
  lemma {:induction false} SumSplit<T>(f: T -> real, a: seq<T>, b: seq<T>, c: seq<T>)
    requires multiset(a) == multiset(b) + multiset(c)
    ensures Sum(f, a) == Sum(f, b) + Sum(f, c)
  {
    assert multiset(b + c) == multiset(a);
    SumPermutation(f, a, b + c);
    SumConcat(f, b, c);
  }

  /** Two functions that differ at one element of a duplicate-free list. */
  lemma {:induction false} SumBump<T>(f: T -> real, g: T -> real, s: seq<T>, x: T, c: real)
    requires forall y | y in s && y != x :: f(y) == g(y)
    requires f(x) == g(x) + c
    requires forall i, j | 0 <= i < j < |s| :: s[i] != s[j]
    ensures Sum(f, s) == Sum(g, s) + if x in s then c else 0.0
  {
    if s != [] {
      var n := |s| - 1;
      SumBump(f, g, s[..n], x, c);
      assert s == s[..n] + [s[n]];
      assert x in s <==> x in s[..n] || x == s[n];
    }
  }

  lemma {:induction false} SumEqual<T>(f: T -> real, g: T -> real, s: seq<T>)
    requires forall x | x in s :: f(x) == g(x)
    ensures Sum(f, s) == Sum(g, s)
  {
    if s != [] { SumEqual(f, g, s[..|s| - 1]); }
  }
}
