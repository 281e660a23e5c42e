/** Finite sums over an enumeration of keys, in exact real arithmetic. */
module Sums {

  /** `f(keys[0]) + ... + f(keys[n-1])`, accumulated left to right as a Python loop does. */
  function SumOver<K>(keys: seq<K>, f: K -> real): real
  {
    if |keys| == 0 then 0.0 else SumOver(keys[..|keys| - 1], f) + f(keys[|keys| - 1])
  }

  /** No key occurs twice. */
  predicate Distinct<K(==)>(s: seq<K>)
  {
    forall i, j :: 0 <= i < j < |s| ==> s[i] != s[j]
  }

  lemma {:induction false} SumOverNonNegative<K>(keys: seq<K>, f: K -> real)
    requires forall k :: k in keys ==> f(k) >= 0.0
    ensures SumOver(keys, f) >= 0.0
  {
    if |keys| > 0 {
      SumOverNonNegative(keys[..|keys| - 1], f);
    }
  }

  lemma {:induction false} SumOverMonotone<K>(keys: seq<K>, f: K -> real, g: K -> real)
    requires forall k :: k in keys ==> f(k) <= g(k)
    ensures SumOver(keys, f) <= SumOver(keys, g)
  {
    if |keys| > 0 {
      SumOverMonotone(keys[..|keys| - 1], f, g);
    }
  }

  /** Two summands that agree on the keys give the same sum. */
  lemma {:induction false} SumOverCongruent<K>(keys: seq<K>, f: K -> real, g: K -> real)
    requires forall k :: k in keys ==> f(k) == g(k)
    ensures SumOver(keys, f) == SumOver(keys, g)
  {
    if |keys| > 0 {
      SumOverCongruent(keys[..|keys| - 1], f, g);
    }
  }

  /** Dividing every summand by `c` divides the sum by `c`. */
  lemma {:induction false} SumOverScaled<K>(keys: seq<K>, f: K -> real, g: K -> real, c: real)
    requires c != 0.0
    requires forall k :: k in keys ==> g(k) == f(k) / c
    ensures SumOver(keys, g) == SumOver(keys, f) / c
  {
    if |keys| > 0 {
      SumOverScaled(keys[..|keys| - 1], f, g, c);
    }
  }

  lemma {:induction false} SumOverConstant<K>(keys: seq<K>, f: K -> real, c: real)
    requires forall k :: k in keys ==> f(k) == c
    ensures SumOver(keys, f) == |keys| as real * c
  {
    if |keys| > 0 {
      SumOverConstant(keys[..|keys| - 1], f, c);
    }
  }

  /** Taking one key out of the enumeration takes its summand out of the sum. */
  lemma {:induction false} SumOverRemove<K>(keys: seq<K>, f: K -> real, j: nat)
    requires j < |keys|
    ensures SumOver(keys, f) == SumOver(keys[..j] + keys[j + 1..], f) + f(keys[j])
  {
    var n := |keys|;
    if j < n - 1 {
      var rest := keys[..j] + keys[j + 1..];
      SumOverRemove(keys[..n - 1], f, j);
      assert keys[..n - 1][..j] + keys[..n - 1][j + 1..] == rest[..|rest| - 1];
      assert rest[|rest| - 1] == keys[n - 1];
    } else {
      assert keys[..j] + keys[j + 1..] == keys[..n - 1];
    }
  }

  /** The sum does not depend on the order of the enumeration. */
  lemma {:induction false} SumOverPermutation<K>(a: seq<K>, b: seq<K>, f: K -> real)
    requires multiset(a) == multiset(b)
    ensures SumOver(a, f) == SumOver(b, f)
  {
    if |a| > 0 {
      var n := |a|;
      var x := a[n - 1];
      assert a == a[..n - 1] + [x];
      assert x in multiset(b);
      var j :| 0 <= j < |b| && b[j] == x;
      assert b == b[..j] + [x] + b[j + 1..];
      var rest := b[..j] + b[j + 1..];
      assert multiset(b) == multiset(rest) + multiset{x};
      assert multiset(a) == multiset(a[..n - 1]) + multiset{x};
      assert multiset(a[..n - 1]) == multiset(a) - multiset{x};
      assert multiset(rest) == multiset(b) - multiset{x};
      SumOverPermutation(a[..n - 1], rest, f);
      SumOverRemove(b, f, j);
    } else {
      assert |b| == |multiset(b)| == 0;
    }
  }

  /** In a duplicate-free sequence every element occurs exactly once. */
  lemma {:induction false} DistinctMultiplicity<K>(s: seq<K>, x: K)
    requires Distinct(s)
    ensures multiset(s)[x] == if x in s then 1 else 0
  {
    if |s| > 0 {
      var n := |s|;
      assert s == s[..n - 1] + [s[n - 1]];
      DistinctMultiplicity(s[..n - 1], x);
      assert x in s <==> x in s[..n - 1] || x == s[n - 1];
    }
  }

  /** Two duplicate-free enumerations of the same set are permutations of each other. */
  lemma SameSetPermutation<K>(a: seq<K>, b: seq<K>)
    requires Distinct(a) && Distinct(b)
    requires forall x :: x in a <==> x in b
    ensures multiset(a) == multiset(b)
  {
    forall x
      ensures multiset(a)[x] == multiset(b)[x]
    {
      DistinctMultiplicity(a, x);
      DistinctMultiplicity(b, x);
    }
  }
}
